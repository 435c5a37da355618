/** The rolling AI allowance: the guard's verdict, its reset instant, and how far concurrency overshoots it. */
module Quota {
  import opened Options
  import opened Sequences
  import opened Sorting

  const WINDOW := 30 * 24 * 60 * 60 * 1000

  datatype Tier = Free | Starter | Pro | Enterprise | Unlisted

  datatype Verdict = Denied | Allowed | TooMany(resetAt: int)

  function QuotaFor(tier: Tier): Option<nat>
  {
    match tier
    case Free => Some(25)
    case Starter => Some(250)
    case Pro => Some(2_000)
    case Enterprise => Some(25_000)
    case Unlisted => None
  }

  // ---- The two queries ----

  function From(start: int): int -> int { row => if row >= start then 1 else 0 }

  /** `count({ createdAt: { gte: now - window } })` */
  function Used(rows: seq<int>, now: int): int { Sum(From(now - WINDOW), rows) }

  function Recent(rows: seq<int>, now: int): (r: seq<int>)
  {
    if |rows| == 0 then []
    else
      var front := Recent(rows[..|rows| - 1], now);
      if rows[|rows| - 1] >= now - WINDOW then front + [rows[|rows| - 1]] else front
  }

  function Earlier(): (int, int) -> bool { (a: int, b: int) => a < b }

  /** `findMany` over the window, ordered by `createdAt` ascending. */
  function Ascending(rows: seq<int>, now: int): seq<int> { StableSort(Earlier(), Recent(rows, now)) }

  function ResetAt(rows: seq<int>, now: int, used: int, limit: nat): int
    requires used >= limit
  {
    var asc := Ascending(rows, now);
    if used - limit < |asc| then asc[used - limit] + WINDOW else now + WINDOW
  }

  /** The usage rows the guard counts for a user. */
  function RowsOf(user: Option<string>, usage: map<string, seq<int>>): seq<int>
  {
    if user.Some? && user.value in usage then usage[user.value] else []
  }

  /** The guard, reading the clock once for the count and once more for the reset instant. */
  function CanActivate(user: Option<string>, orgs: map<string, Tier>, usage: map<string, seq<int>>, now: int,
                       later: int): Verdict
  {
    if user.None? || user.value !in orgs || QuotaFor(orgs[user.value]).None? then Denied
    else
      var limit := QuotaFor(orgs[user.value]).value;
      var rows := RowsOf(user, usage);
      var used := Used(rows, now);
      if used < limit then Allowed else TooMany(ResetAt(rows, later, used, limit))
  }

  /** The rows of the 30 days up to `now`, by position. */
  ghost function InWindow(rows: seq<int>, now: int): set<nat>
  {
    set i: nat | i < |rows| && rows[i] >= now - 2_592_000_000
  }

  lemma {:induction false} UsedCounts(rows: seq<int>, now: int)
    ensures Used(rows, now) == |InWindow(rows, now)|
  {
    if |rows| == 0 {
      assert InWindow(rows, now) == {};
    } else {
      var n := |rows| - 1;
      UsedCounts(rows[..n], now);
      assert InWindow(rows, now) == InWindow(rows[..n], now) + if rows[n] >= now - 2_592_000_000 then {n} else {};
    }
  }

  /** Who is denied, who is let through, and who is told to wait. */
  lemma GuardAnswers(user: Option<string>, orgs: map<string, Tier>, usage: map<string, seq<int>>, now: int, later: int)
    ensures var r := CanActivate(user, orgs, usage, now, later);
            && (r.Denied? <==> user.None? || user.value !in orgs || orgs[user.value] == Unlisted)
            && (!r.Denied? ==>
                  var used := if user.value in usage then |InWindow(usage[user.value], now)| else 0;
                  var quota := match orgs[user.value]
                               case Free => 25 case Starter => 250 case Pro => 2_000 case _ => 25_000;
                  (r.Allowed? <==> used < quota) && (r.TooMany? <==> used >= quota))
  {
    UsedCounts(RowsOf(user, usage), now);
    assert InWindow([], now) == {};
  }

  // ---- Order statistics of the window ----

  lemma EarlierIsOrder()
    ensures WeakOrder(Earlier())
  {
  }

  lemma {:induction false} NoneFrom(x: int, asc: seq<int>)
    requires forall k :: 0 <= k < |asc| ==> asc[k] < x
    ensures Sum(From(x), asc) == 0
  {
    if asc != [] {
      NoneFrom(x, asc[..|asc| - 1]);
    }
  }

  /** At least `n` values of an ascending sequence reach `x` iff the `n`-th largest does. */
  lemma {:induction false} NthLargest(x: int, asc: seq<int>, n: nat)
    requires n >= 1
    requires forall j, k :: 0 <= j < k < |asc| ==> asc[j] <= asc[k]
    ensures Sum(From(x), asc) >= n <==> n <= |asc| && asc[|asc| - n] >= x
    ensures Sum(From(x), asc) <= |asc|
    decreases asc
  {
    if asc != [] {
      var front, last := asc[..|asc| - 1], asc[|asc| - 1];
      if last < x {
        NoneFrom(x, asc);
      } else {
        NthLargest(x, front, if n == 1 then 1 else n - 1);
        assert Sum(From(x), front) >= 0 by {
          SumNonNegative(x, front);
        }
      }
    }
  }

  lemma {:induction false} SumNonNegative(x: int, rows: seq<int>)
    ensures Sum(From(x), rows) >= 0
  {
    if rows != [] {
      SumNonNegative(x, rows[..|rows| - 1]);
    }
  }

  /** Rows outside the window at `now` stay outside: later counts need only the rows inside. */
  lemma {:induction false} RecentSuffices(rows: seq<int>, now: int, t: int)
    requires now <= t
    ensures Sum(From(t - WINDOW), Recent(rows, now)) == Used(rows, t)
  {
    if rows != [] {
      var last := rows[|rows| - 1];
      RecentSuffices(rows[..|rows| - 1], now, t);
      SumSnoc(From(t - WINDOW), Recent(rows[..|rows| - 1], now), last);
    }
  }

  lemma {:induction false} RecentMember(rows: seq<int>, now: int, r: int)
    requires r in Recent(rows, now)
    ensures r in rows && r >= now - WINDOW
  {
    var front, last := rows[..|rows| - 1], rows[|rows| - 1];
    assert rows == front + [last];
    if r in Recent(front, now) {
      RecentMember(front, now, r);
    }
  }

  lemma AscendingMember(rows: seq<int>, now: int, k: nat)
    requires k < |Ascending(rows, now)|
    ensures Ascending(rows, now)[k] in rows && Ascending(rows, now)[k] >= now - WINDOW
  {
    var asc := Ascending(rows, now);
    SortPermutes(Earlier(), Recent(rows, now));
    assert asc[k] in multiset(asc);
    assert asc[k] in multiset(Recent(rows, now));
    RecentMember(rows, now, asc[k]);
  }

  /** `Used(t) >= limit` for a later `t` is a question about one row. */
  lemma StillBlocked(rows: seq<int>, now: int, t: int, limit: nat)
    requires limit >= 1 && now <= t
    ensures var asc := Ascending(rows, now);
            |asc| == Used(rows, now) &&
            (Used(rows, t) >= limit <==> limit <= |asc| && asc[|asc| - limit] + WINDOW >= t)
    ensures forall j, k :: 0 <= j < k < |Ascending(rows, now)| ==> Ascending(rows, now)[j] <= Ascending(rows, now)[k]
  {
    EarlierIsOrder();
    SortSorted(Earlier(), Recent(rows, now));
    SortPermutes(Earlier(), Recent(rows, now));
    SumPermutation(From(t - WINDOW), Ascending(rows, now), Recent(rows, now));
    RecentSuffices(rows, now, t);
    RecentSize(rows, now);
    NthLargest(t - WINDOW, Ascending(rows, now), limit);
  }

  lemma {:induction false} RecentSize(rows: seq<int>, now: int)
    ensures |Recent(rows, now)| == Used(rows, now)
  {
    if rows != [] {
      RecentSize(rows[..|rows| - 1], now);
    }
  }

  /** With no row ageing out between the two reads, the promised instant is exact: blocked up to it, free after it. */
  lemma ResetAtExact(rows: seq<int>, now: int, later: int, limit: nat, t: int)
    requires limit >= 1 && now <= later <= t
    requires limit <= Used(rows, now) == Used(rows, later)
    ensures Used(rows, t) >= limit <==> t <= ResetAt(rows, later, Used(rows, now), limit)
  {
    StillBlocked(rows, later, t, limit);
  }

  /** Whatever ages out between the reads, the promise is never too early. */
  lemma ResetAtSafe(rows: seq<int>, now: int, later: int, limit: nat, t: int)
    requires limit >= 1 && now <= later <= t
    requires limit <= Used(rows, now)
    requires forall r :: r in rows ==> r <= later
    requires t > ResetAt(rows, later, Used(rows, now), limit)
    ensures Used(rows, t) < limit
  {
    StillBlocked(rows, later, t, limit);
    UsedShrinks(rows, now, later);
    var asc := Ascending(rows, later);
    if limit <= |asc| {
      AscendingMember(rows, later, |asc| - limit);
    }
  }

  /**
   * The instant in the guard's answer is the one its own verdict turns on: asked again after it, with no
   * generation in between, the guard lets the request through; and, if no row aged out between its two
   * reads, not before.
   */
  lemma PromiseKept(user: Option<string>, orgs: map<string, Tier>, usage: map<string, seq<int>>, now: int,
                    later: int, t: int, later': int)
    requires now <= later <= t && CanActivate(user, orgs, usage, now, later).TooMany?
    requires forall r :: r in RowsOf(user, usage) ==> r <= later
    ensures t > CanActivate(user, orgs, usage, now, later).resetAt ==>
              CanActivate(user, orgs, usage, t, later') == Allowed
    ensures Used(RowsOf(user, usage), later) == Used(RowsOf(user, usage), now) ==>
              (CanActivate(user, orgs, usage, t, later') == Allowed
               <==> t > CanActivate(user, orgs, usage, now, later).resetAt)
  {
    var rows, limit := RowsOf(user, usage), QuotaFor(orgs[user.value]).value;
    if t > CanActivate(user, orgs, usage, now, later).resetAt {
      ResetAtSafe(rows, now, later, limit, t);
    }
    if Used(rows, later) == Used(rows, now) {
      ResetAtExact(rows, now, later, limit, t);
    }
  }

  lemma UsedShrinks(rows: seq<int>, now: int, later: int)
    requires now <= later
    ensures Used(rows, later) <= Used(rows, now)
  {
    SumMonotone(From(later - WINDOW), From(now - WINDOW), rows);
  }

  /** Skipping the `used - limit` oldest rows matters: the single oldest row would promise an instant still blocked. */
  lemma OldestRowTooEarly(rows: seq<int>, now: int, limit: nat)
    requires limit >= 1 && limit < Used(rows, now)
    ensures var asc := Ascending(rows, now);
            |asc| == Used(rows, now) &&
            (asc[0] < asc[|asc| - limit] ==> Used(rows, asc[0] + WINDOW + 1) >= limit)
  {
    StillBlocked(rows, now, now, limit);
    var asc := Ascending(rows, now);
    if asc[0] < asc[|asc| - limit] {
      AscendingMember(rows, now, 0);
      StillBlocked(rows, now, asc[0] + WINDOW + 1, limit);
    }
  }

  // ---- The check-then-act gap ----

  /** One organization: its usage rows and the requests that passed the guard and have not finished. */
  datatype Gate = Gate(clock: int, rows: seq<int>, inFlight: nat)

  datatype Event = Elapse(ms: nat) | Request | Succeed | Fail

  function Next(limit: nat, g: Gate, e: Event): Gate
  {
    match e
    case Elapse(ms) => g.(clock := g.clock + ms)
    case Request => if Used(g.rows, g.clock) < limit then g.(inFlight := g.inFlight + 1) else g
    case Succeed => if g.inFlight > 0 then g.(rows := g.rows + [g.clock], inFlight := g.inFlight - 1) else g
    case Fail => if g.inFlight > 0 then g.(inFlight := g.inFlight - 1) else g
  }

  function Run(limit: nat, g: Gate, events: seq<Event>): Gate
  {
    if |events| == 0 then g else Next(limit, Run(limit, g, events[..|events| - 1]), events[|events| - 1])
  }

  /** At no instant of the run are more than `k` requests between guard and usage row. */
  predicate AtMostInFlight(limit: nat, g: Gate, events: seq<Event>, k: nat)
  {
    Run(limit, g, events).inFlight <= k && (events != [] ==> AtMostInFlight(limit, g, events[..|events| - 1], k))
  }

  lemma StepKeepsBound(limit: nat, g: Gate, e: Event, k: nat)
    requires k >= 1 && Used(g.rows, g.clock) + g.inFlight <= limit + k - 1
    requires Next(limit, g, e).inFlight <= k
    ensures var h := Next(limit, g, e); Used(h.rows, h.clock) + h.inFlight <= limit + k - 1
  {
    if e.Elapse? {
      UsedShrinks(g.rows, g.clock, g.clock + e.ms);
    }
    SumSnoc(From(g.clock - WINDOW), g.rows, g.clock);
  }

  /** With at most `k` requests in flight, the window never holds more than `limit + k - 1` rows. */
  lemma {:induction false} OvershootBound(limit: nat, g: Gate, events: seq<Event>, k: nat)
    requires k >= 1 && Used(g.rows, g.clock) + g.inFlight <= limit + k - 1
    requires AtMostInFlight(limit, g, events, k)
    ensures var h := Run(limit, g, events); Used(h.rows, h.clock) + h.inFlight <= limit + k - 1
  {
    if events != [] {
      OvershootBound(limit, g, events[..|events| - 1], k);
      StepKeepsBound(limit, Run(limit, g, events[..|events| - 1]), events[|events| - 1], k);
    }
  }

  lemma {:induction false} RunConcat(limit: nat, g: Gate, xs: seq<Event>, ys: seq<Event>, k: nat)
    ensures Run(limit, g, xs + ys) == Run(limit, Run(limit, g, xs), ys)
    ensures AtMostInFlight(limit, g, xs, k) && AtMostInFlight(limit, Run(limit, g, xs), ys, k) ==>
              AtMostInFlight(limit, g, xs + ys, k)
  {
    if ys == [] {
      assert xs + ys == xs;
    } else {
      RunConcat(limit, g, xs, ys[..|ys| - 1], k);
      assert (xs + ys)[..|xs + ys| - 1] == xs + ys[..|ys| - 1];
    }
  }

  function Times(n: nat, block: seq<Event>): (r: seq<Event>)
  {
    if n == 0 then [] else Times(n - 1, block) + block
  }

  function Passing(): seq<Event> { [Request] }

  function Finishing(): seq<Event> { [Succeed] }

  function Generation(): seq<Event> { Passing() + Finishing() }

  /** Fill the allowance one request at a time, then let `k` requests pass the guard together. */
  function Crowd(limit: nat, k: nat): seq<Event>
    requires limit >= 1
  {
    Times(limit - 1, Generation()) + Times(k, Passing()) + Times(k, Finishing())
  }

  predicate Holding(g: Gate, rows: nat, inFlight: nat)
  {
    Used(g.rows, g.clock) == rows && g.inFlight == inFlight
  }

  lemma OneRequest(limit: nat, g: Gate)
    requires Used(g.rows, g.clock) < limit
    ensures Run(limit, g, Passing()) == g.(inFlight := g.inFlight + 1)
    ensures AtMostInFlight(limit, g, Passing(), g.inFlight + 1)
  {
    assert [Request][..0] == [];
  }

  lemma OneSuccess(limit: nat, g: Gate)
    requires g.inFlight > 0
    ensures Run(limit, g, Finishing()) == g.(rows := g.rows + [g.clock], inFlight := g.inFlight - 1)
    ensures AtMostInFlight(limit, g, Finishing(), g.inFlight)
    ensures Used(g.rows + [g.clock], g.clock) == Used(g.rows, g.clock) + 1
  {
    assert [Succeed][..0] == [];
    SumSnoc(From(g.clock - WINDOW), g.rows, g.clock);
  }

  lemma {:induction false} LooserInFlight(limit: nat, g: Gate, events: seq<Event>, j: nat, k: nat)
    requires j <= k && AtMostInFlight(limit, g, events, j)
    ensures AtMostInFlight(limit, g, events, k)
  {
    if events != [] {
      LooserInFlight(limit, g, events[..|events| - 1], j, k);
    }
  }

  lemma OneGeneration(limit: nat, g: Gate)
    requires Used(g.rows, g.clock) < limit && g.inFlight == 0
    ensures Run(limit, g, Generation()) == g.(rows := g.rows + [g.clock])
    ensures AtMostInFlight(limit, g, Generation(), 1)
    ensures Used(g.rows + [g.clock], g.clock) == Used(g.rows, g.clock) + 1
  {
    OneRequest(limit, g);
    OneSuccess(limit, g.(inFlight := 1));
    RunConcat(limit, g, Passing(), Finishing(), 1);
  }

  lemma {:induction false} FillUp(limit: nat, g: Gate, n: nat)
    requires Holding(g, 0, 0) && n <= limit
    ensures Holding(Run(limit, g, Times(n, Generation())), n, 0)
    ensures AtMostInFlight(limit, g, Times(n, Generation()), 1)
  {
    if n != 0 {
      FillUp(limit, g, n - 1);
      OneGeneration(limit, Run(limit, g, Times(n - 1, Generation())));
      RunConcat(limit, g, Times(n - 1, Generation()), Generation(), 1);
    }
  }

  lemma {:induction false} PassTogether(limit: nat, g: Gate, rows: nat, n: nat)
    requires Holding(g, rows, 0) && rows < limit
    ensures Holding(Run(limit, g, Times(n, Passing())), rows, n)
    ensures AtMostInFlight(limit, g, Times(n, Passing()), n)
  {
    if n != 0 {
      PassTogether(limit, g, rows, n - 1);
      var front := Times(n - 1, Passing());
      OneRequest(limit, Run(limit, g, front));
      LooserInFlight(limit, g, front, n - 1, n);
      RunConcat(limit, g, front, Passing(), n);
    }
  }

  lemma {:induction false} FinishTogether(limit: nat, g: Gate, rows: nat, k: nat, n: nat)
    requires Holding(g, rows, k) && n <= k
    ensures Holding(Run(limit, g, Times(n, Finishing())), rows + n, k - n)
    ensures AtMostInFlight(limit, g, Times(n, Finishing()), k)
  {
    if n != 0 {
      FinishTogether(limit, g, rows, k, n - 1);
      var front := Times(n - 1, Finishing());
      var h := Run(limit, g, front);
      OneSuccess(limit, h);
      LooserInFlight(limit, h, Finishing(), h.inFlight, k);
      RunConcat(limit, g, front, Finishing(), k);
    }
  }

  /** The bound is attained, for every limit and every degree of concurrency. */
  lemma OvershootAttained(limit: nat, k: nat, clock: int)
    requires limit >= 1 && k >= 1
    ensures var g := Gate(clock, [], 0); var h := Run(limit, g, Crowd(limit, k));
            AtMostInFlight(limit, g, Crowd(limit, k), k) && Used(h.rows, h.clock) == limit + k - 1
  {
    var g := Gate(clock, [], 0);
    var fill, pass, finish := Times(limit - 1, Generation()), Times(k, Passing()), Times(k, Finishing());
    FillUp(limit, g, limit - 1);
    LooserInFlight(limit, g, fill, 1, k);
    PassTogether(limit, Run(limit, g, fill), limit - 1, k);
    RunConcat(limit, g, fill, pass, k);
    FinishTogether(limit, Run(limit, g, fill + pass), limit - 1, k, k);
    RunConcat(limit, g, fill + pass, finish, k);
  }
}
