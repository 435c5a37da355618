/** The analytics overview: totals, a breakdown by platform, and the top posts. */
module Analytics {
  import opened Options
  import opened Sequences
  import opened Sorting
  import opened Grouping

  datatype Metric = Impressions | Reach | Likes | Comments | Shares | Clicks

  datatype Metrics = Metrics(impressions: int, reach: int, likes: int, comments: int, shares: int, clicks: int)

  datatype Row = Row(
    job: string, variant: Option<string>, platform: string, externalPostId: Option<string>, metrics: Metrics,
        capturedAt: int)

  datatype Breakdown = Breakdown(platform: string, postCount: nat, metrics: Metrics)

  datatype TopPost = TopPost(row: Row, score: int)

  datatype Overview = Overview(
    totals: Metrics, byPlatform: seq<Breakdown>, postCount: nat, topPosts: seq<TopPost>, lastUpdated: Option<int>)

  const ZERO := Metrics(0, 0, 0, 0, 0, 0)

  function Get(m: Metrics, k: Metric): int
  {
    match k
    case Impressions => m.impressions
    case Reach => m.reach
    case Likes => m.likes
    case Comments => m.comments
    case Shares => m.shares
    case Clicks => m.clicks
  }

  /** `addInto` */
  function Add(a: Metrics, b: Metrics): (m: Metrics)
    ensures forall k :: Get(m, k) == Get(a, k) + Get(b, k)
  {
    Metrics(a.impressions + b.impressions, a.reach + b.reach, a.likes + b.likes,
            a.comments + b.comments, a.shares + b.shares, a.clicks + b.clicks)
  }

  /** The six metrics are told apart, and are all there is. */
  lemma GetDetermines(a: Metrics, b: Metrics)
    ensures (forall k :: Get(a, k) == Get(b, k)) <==> a == b
  {
    if forall k :: Get(a, k) == Get(b, k) {
      assert Get(a, Impressions) == Get(b, Impressions) && Get(a, Reach) == Get(b, Reach);
      assert Get(a, Likes) == Get(b, Likes) && Get(a, Comments) == Get(b, Comments);
      assert Get(a, Shares) == Get(b, Shares) && Get(a, Clicks) == Get(b, Clicks);
    }
  }

  function EngagementOf(m: Metrics): int { m.likes + m.comments + m.shares + m.clicks }

  // ---- What the overview means ----

  function ValueOf(k: Metric): Row -> int { (r: Row) => Get(r.metrics, k) }

  function PlatformOf(): Row -> string { (r: Row) => r.platform }

  function CountOn(p: string): Row -> int { Within(PlatformOf(), One(), p) }

  function ValueOn(p: string, k: Metric): Row -> int { Within(PlatformOf(), ValueOf(k), p) }

  /** Each of the six metrics is the sum over the rows. */
  ghost predicate AreTotals(rows: seq<Row>, m: Metrics) { forall k :: Get(m, k) == Sum(ValueOf(k), rows) }

  /** A platform with posts, their number, and their metrics summed. */
  ghost predicate IsBreakdown(rows: seq<Row>, b: Breakdown)
  {
    && b.postCount == Sum(CountOn(b.platform), rows) > 0
    && forall k :: Get(b.metrics, k) == Sum(ValueOn(b.platform, k), rows)
  }

  function Platforms(bs: seq<Breakdown>): (ps: seq<string>)
    ensures |ps| == |bs| && forall i :: 0 <= i < |bs| ==> ps[i] == bs[i].platform
  {
    seq(|bs|, i requires 0 <= i < |bs| => bs[i].platform)
  }

  /** Every platform that has rows, once. */
  ghost predicate IsComparison(rows: seq<Row>, bs: seq<Breakdown>)
  {
    && Distinct(Platforms(bs))
    && (forall b :: b in bs ==> IsBreakdown(rows, b))
    && (forall r :: r in rows ==> r.platform in Platforms(bs))
  }

  function Tops(rows: seq<Row>): (tops: seq<TopPost>)
    ensures |tops| == |rows| && forall i :: 0 <= i < |rows| ==>
        tops[i] == TopPost(rows[i], EngagementOf(rows[i].metrics))
  {
    seq(|rows|, i requires 0 <= i < |rows| => TopPost(rows[i], EngagementOf(rows[i].metrics)))
  }

  function Higher(): (TopPost, TopPost) -> bool { (a: TopPost, b: TopPost) => a.score > b.score }

  /** `o` lists all positions of the rows by descending score, equal scores in input order. */
  ghost predicate RanksAll(rows: seq<Row>, o: seq<nat>)
  {
    && Indices(o, |rows|) && (forall i :: 0 <= i < |rows| ==> i in o)
    && StablyOrdered(Higher(), Tops(rows), o)
  }

  predicate IsLatest(rows: seq<Row>, t: Option<int>)
  {
    match t
    case None => |rows| == 0
    case Some(latest) =>
      && (exists i :: 0 <= i < |rows| && rows[i].capturedAt == latest)
      && (forall i :: 0 <= i < |rows| ==> rows[i].capturedAt <= latest)
  }

  /** The platforms' metrics and post counts add up to the organization's. */
  lemma ComparisonConserves(rows: seq<Row>, bs: seq<Breakdown>, totals: Metrics, k: Metric)
    requires IsComparison(rows, bs) && AreTotals(rows, totals)
    ensures Sum((b: Breakdown) => Get(b.metrics, k), bs) == Get(totals, k)
    ensures Sum((b: Breakdown) => b.postCount, bs) == |rows|
  {
    GroupsConserve(PlatformOf(), ValueOf(k), rows, Platforms(bs));
    GroupsConserve(PlatformOf(), One(), rows, Platforms(bs));
    SumOfOnes(rows);
    BreakdownsAreGroups(rows, bs, (b: Breakdown) => Get(b.metrics, k), ValueOf(k));
    BreakdownsAreGroups(rows, bs, (b: Breakdown) => b.postCount, One());
  }

  lemma {:induction false} BreakdownsAreGroups(rows: seq<Row>, bs: seq<Breakdown>, part: Breakdown -> int,
                                               f: Row -> int)
    requires forall b :: b in bs ==> part(b) == Sum(Within(PlatformOf(), f, b.platform), rows)
    ensures Sum(part, bs) == Sum(GroupSum(PlatformOf(), f, rows), Platforms(bs))
  {
    if |bs| != 0 {
      BreakdownsAreGroups(rows, bs[..|bs| - 1], part, f);
      assert Platforms(bs)[..|bs| - 1] == Platforms(bs[..|bs| - 1]);
      assert bs[|bs| - 1] in bs;
    }
  }

  /** A post that is left out scores no higher than any post kept, and lies behind those of equal score. */
  lemma TopPostsDominate(rows: seq<Row>, o: seq<nat>, n: nat, i: nat)
    requires RanksAll(rows, o) && i < |rows| && i !in Slice(o, n)
    ensures |Slice(o, n)| == n
    ensures forall k :: 0 <= k < n ==>
              var j := Slice(o, n)[k];
              Tops(rows)[j].score > Tops(rows)[i].score || (Tops(rows)[j].score == Tops(rows)[i].score && j < i)
  {
    assert i in o;
    var at :| 0 <= at < |o| && o[at] == i;
    assert forall k :: 0 <= k < n ==> Ahead(Higher(), Tops(rows), o[k], o[at]);
  }

  // ---- The accumulators ----

  /** What the map holds about one platform. */
  ghost predicate PlatformOk(rows: seq<Row>, per: map<string, Breakdown>, p: string)
  {
    && (p in per <==> Sum(CountOn(p), rows) > 0)
    && Sum(CountOn(p), rows) >= 0
    && (p in per ==> per[p].platform == p && IsBreakdown(rows, per[p]))
    && (p !in per ==> forall k :: Sum(ValueOn(p, k), rows) == 0)
  }

  ghost predicate Accumulated(rows: seq<Row>, order: seq<string>, per: map<string, Breakdown>)
  {
    && Distinct(order)
    && (forall p :: p in order <==> p in per)
    && (forall p :: PlatformOk(rows, per, p))
  }

  /** The bucket of a row after the row is added to it. */
  function Grown(per: map<string, Breakdown>, r: Row): Breakdown
  {
    var b := if r.platform in per then per[r.platform] else Breakdown(r.platform, 0, ZERO);
    Breakdown(b.platform, b.postCount + 1, Add(b.metrics, r.metrics))
  }

  lemma PlatformSnoc(rows: seq<Row>, per: map<string, Breakdown>, r: Row, p: string)
    requires PlatformOk(rows, per, p)
    ensures PlatformOk(rows + [r], per[r.platform := Grown(per, r)], p)
  {
    SumSnoc(CountOn(p), rows, r);
    forall k ensures Sum(ValueOn(p, k), rows + [r]) == Sum(ValueOn(p, k), rows) + ValueOn(p, k)(r) {
      SumSnoc(ValueOn(p, k), rows, r);
    }
  }

  lemma AccumulatedNext(rows: seq<Row>, i: nat, order: seq<string>, per: map<string, Breakdown>)
    requires i < |rows| && Accumulated(rows[..i], order, per)
    ensures var r := rows[i];
            Accumulated(rows[..i + 1], if r.platform in per then order else order + [r.platform],
                        per[r.platform := Grown(per, r)])
  {
    var per' := per[rows[i].platform := Grown(per, rows[i])];
    var more := rows[..i + 1];
    PrefixSnoc(rows, i);
    forall p ensures PlatformOk(more, per', p) {
      assert PlatformOk(rows[..i], per, p);
      PlatformSnoc(rows[..i], per, rows[i], p);
    }
  }

  lemma TotalsNext(rows: seq<Row>, i: nat, totals: Metrics)
    requires i < |rows| && AreTotals(rows[..i], totals)
    ensures AreTotals(rows[..i + 1], Add(totals, rows[i].metrics))
  {
    PrefixSnoc(rows, i);
    forall k ensures Sum(ValueOf(k), rows[..i + 1]) == Sum(ValueOf(k), rows[..i]) + Get(rows[i].metrics, k) {
      SumSnoc(ValueOf(k), rows[..i], rows[i]);
    }
  }

  lemma LatestNext(rows: seq<Row>, i: nat, latest: Option<int>)
    requires i < |rows| && IsLatest(rows[..i], latest)
    ensures IsLatest(rows[..i + 1],
                     if latest.None? || rows[i].capturedAt > latest.value then Some(rows[i].capturedAt) else latest)
  {
    PrefixSnoc(rows, i);
    assert rows[..i + 1][i] == rows[i];
    if latest.Some? {
      var k :| 0 <= k < i && rows[..i][k].capturedAt == latest.value;
      assert rows[..i + 1][k].capturedAt == latest.value;
    }
  }

  function ByName(before: (string, string) -> bool): (Breakdown, Breakdown) -> bool
  {
    (a: Breakdown, b: Breakdown) => before(a.platform, b.platform)
  }

  function Listed(order: seq<string>, per: map<string, Breakdown>): (bs: seq<Breakdown>)
    requires forall p :: p in order ==> p in per
    ensures |bs| == |order| && forall i :: 0 <= i < |order| ==> bs[i] == per[order[i]]
  {
    seq(|order|, i requires 0 <= i < |order| => per[order[i]])
  }

  lemma ListedIsComparison(rows: seq<Row>, order: seq<string>, per: map<string, Breakdown>)
    requires Accumulated(rows, order, per)
    ensures IsComparison(rows, Listed(order, per))
  {
    var bs := Listed(order, per);
    forall i | 0 <= i < |bs| ensures bs[i].platform == order[i] && IsBreakdown(rows, bs[i]) {
      assert PlatformOk(rows, per, order[i]);
    }
    forall r | r in rows ensures r.platform in Platforms(bs) {
      CountPositive(PlatformOf(), r.platform, rows);
      assert PlatformOk(rows, per, r.platform);
      var i :| 0 <= i < |order| && order[i] == r.platform;
      assert Platforms(bs)[i] == r.platform;
    }
  }

  lemma {:induction false} SamePlatforms(xs: seq<Breakdown>, ys: seq<Breakdown>)
    requires multiset(xs) == multiset(ys) && Distinct(Platforms(xs))
    ensures Distinct(Platforms(ys))
    ensures forall p :: p in Platforms(xs) ==> p in Platforms(ys)
  {
    forall i, j | 0 <= i < j < |ys| ensures Platforms(ys)[i] != Platforms(ys)[j] {
      OnlyOnce(xs, ys, i, j);
    }
    forall p | p in Platforms(xs) ensures p in Platforms(ys) {
      var i :| 0 <= i < |xs| && xs[i].platform == p;
      assert xs[i] in multiset(ys);
      var j :| 0 <= j < |ys| && ys[j] == xs[i];
      assert Platforms(ys)[j] == p;
    }
  }

  lemma OnlyOnce(xs: seq<Breakdown>, ys: seq<Breakdown>, i: nat, j: nat)
    requires multiset(xs) == multiset(ys) && Distinct(Platforms(xs)) && i < j < |ys|
    ensures ys[i].platform != ys[j].platform
  {
    forall a, b | 0 <= a < b < |xs| ensures xs[a] != xs[b] {
      assert Platforms(xs)[a] != Platforms(xs)[b];
    }
    DistinctOnce(xs);
    assert ys[i] in multiset(xs) && ys[j] in multiset(xs);
    var a :| 0 <= a < |xs| && xs[a] == ys[i];
    var b :| 0 <= b < |xs| && xs[b] == ys[j];
    assert Platforms(xs)[a] == ys[i].platform && Platforms(xs)[b] == ys[j].platform;
    OnceDistinct(ys, i, j);
  }

  lemma NamesOrdered(before: (string, string) -> bool)
    requires WeakOrder(before)
    ensures WeakOrder(ByName(before))
  {
    var lt := ByName(before);
    forall a, b | lt(a, b) ensures !lt(b, a) {
      assert before(a.platform, b.platform);
    }
    forall a, b, c | !lt(a, b) && !lt(b, c) ensures !lt(a, c) {
      assert !before(a.platform, b.platform) && !before(b.platform, c.platform);
    }
  }

  /** Sorting the breakdowns keeps them the comparison. */
  lemma SortedComparison(rows: seq<Row>, bs: seq<Breakdown>, before: (string, string) -> bool)
    requires IsComparison(rows, bs) && WeakOrder(before)
    ensures var sorted := StableSort(ByName(before), bs);
            && IsComparison(rows, sorted)
            && forall i, j :: 0 <= i < j < |sorted| ==> !before(sorted[j].platform, sorted[i].platform)
  {
    var lt := ByName(before);
    NamesOrdered(before);
    SortSorted(lt, bs);
    SortPermutes(lt, bs);
    SamePlatforms(bs, StableSort(lt, bs));
    forall b | b in StableSort(lt, bs) ensures IsBreakdown(rows, b) {
      assert b in multiset(StableSort(lt, bs));
      assert b in multiset(bs);
    }
  }

  lemma HigherIsOrder()
    ensures WeakOrder(Higher())
  {
  }

  lemma OrderRanksAll(rows: seq<Row>)
    ensures RanksAll(rows, Order(Higher(), Tops(rows)))
  {
    HigherIsOrder();
    OrderStable(Higher(), Tops(rows));
    forall i | 0 <= i < |rows| ensures i in Order(Higher(), Tops(rows)) {
      OrderComplete(Higher(), Tops(rows), i);
    }
  }

  lemma TopsMean(rows: seq<Row>, o: seq<nat>, n: int)
    requires RanksAll(rows, o) && |o| == |rows|
    ensures var tops := Slice(Pick(Tops(rows), o), n);
            && (n >= 0 ==> |tops| == if n < |rows| then n else |rows|)
            && (forall t :: t in tops ==>
                  && t.row in rows
                  && t.score == t.row.metrics.likes + t.row.metrics.comments + t.row.metrics.shares
                                + t.row.metrics.clicks)
            && forall i, j :: 0 <= i < j < |tops| ==> tops[i].score >= tops[j].score
  {
    var tops := Slice(Pick(Tops(rows), o), n);
    forall i, j | 0 <= i < j < |tops| ensures tops[i].score >= tops[j].score {
      assert Ahead(Higher(), Tops(rows), o[i], o[j]);
    }
  }

  /** `before` is the locale's order of platform names. */
  method AggregateOverview(rows: seq<Row>, topN: int, before: (string, string) -> bool)
    returns (r: Overview, ghost o: seq<nat>)
    requires WeakOrder(before)
    ensures AreTotals(rows, r.totals) && r.postCount == |rows| && IsLatest(rows, r.lastUpdated)
    ensures IsComparison(rows, r.byPlatform)
    ensures forall i, j :: 0 <= i < j < |r.byPlatform| ==> !before(r.byPlatform[j].platform, r.byPlatform[i].platform)
    ensures RanksAll(rows, o) && r.topPosts == Slice(Pick(Tops(rows), o), topN)
    // a post's score is its likes, comments, shares and clicks; the top posts are rows, best first
    ensures topN >= 0 ==> |r.topPosts| == if topN < |rows| then topN else |rows|
    ensures forall t :: t in r.topPosts ==>
              && t.row in rows
              && t.score == t.row.metrics.likes + t.row.metrics.comments + t.row.metrics.shares + t.row.metrics.clicks
    ensures forall i, j :: 0 <= i < j < |r.topPosts| ==> r.topPosts[i].score >= r.topPosts[j].score
    // the totals are sums over the rows, the latest capture is one of them and none is later
    ensures r.lastUpdated.None? <==> |rows| == 0
    ensures r.lastUpdated.Some? ==>
              && (exists i :: 0 <= i < |rows| && rows[i].capturedAt == r.lastUpdated.value)
              && forall i :: 0 <= i < |rows| ==> rows[i].capturedAt <= r.lastUpdated.value
  {
    var totals, order, per, lastUpdated := ZERO, [], map[], None;
    for i := 0 to |rows|
      invariant AreTotals(rows[..i], totals)
      invariant Accumulated(rows[..i], order, per)
      invariant IsLatest(rows[..i], lastUpdated)
    {
      TotalsNext(rows, i, totals);
      AccumulatedNext(rows, i, order, per);
      LatestNext(rows, i, lastUpdated);
      var row := rows[i];
      totals := Add(totals, row.metrics);
      if row.platform !in per {
        order := order + [row.platform];
      }
      per := per[row.platform := Grown(per, row)];
      if lastUpdated.None? || row.capturedAt > lastUpdated.value {
        lastUpdated := Some(row.capturedAt);
      }
    }
    WholePrefix(rows);
    ListedIsComparison(rows, order, per);
    SortedComparison(rows, Listed(order, per), before);
    o := Order(Higher(), Tops(rows));
    OrderRanksAll(rows);
    TopsMean(rows, o, topN);
    var topPosts := Slice(StableSort(Higher(), Tops(rows)), topN);
    var byPlatform := StableSort(ByName(before), Listed(order, per));
    r := Overview(totals, byPlatform, |rows|, topPosts, lastUpdated);
  }
}
