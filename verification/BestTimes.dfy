/** Ranking the hours of the week by the average engagement of past posts. */
module BestTimes {
  import opened Sequences
  import opened Sorting
  import opened Grouping

  /** `at` in milliseconds since 1970, UTC. */
  datatype Post = Post(at: int, engagement: int)

  datatype Hour = Hour(day: int, hour: int)

  datatype Bucket = Bucket(total: int, count: nat)

  datatype Slot = Slot(hour: Hour, average: real, samples: nat)

  /** `getUTCDay` (the first of January 1970 was a Thursday) and `getUTCHours`. */
  function HourOf(p: Post): (h: Hour)
    ensures 0 <= h.day < 7 && 0 <= h.hour < 24
  {
    Hour((p.at / 86_400_000 + 4) % 7, p.at / 3_600_000 % 24)
  }

  /**
   * 1970 began in the first hour of a Thursday; an hour later it is the next hour, of the next day if it
   * wraps around.
   */
  lemma HourOfTheWeek(p: Post, q: Post)
    requires q.at == p.at + 3_600_000
    ensures p.at == 0 ==> HourOf(p) == Hour(4, 0)
    ensures HourOf(q).hour == (HourOf(p).hour + 1) % 24
    ensures HourOf(q).day == if HourOf(p).hour == 23 then (HourOf(p).day + 1) % 7 else HourOf(p).day
  {
    var h := p.at / 3_600_000;
    assert q.at / 3_600_000 == h + 1;
    DaysOfHours(p.at);
    DaysOfHours(q.at);
    NextHour(h);
  }

  lemma DaysOfHours(at: int)
    ensures at / 86_400_000 == at / 3_600_000 / 24
  {
  }

  lemma NextHour(h: int)
    ensures (h + 1) % 24 == (h % 24 + 1) % 24
    ensures (h + 1) / 24 == if h % 24 == 23 then h / 24 + 1 else h / 24
  {
  }

  /** All instants of an hour share it. */
  lemma WithinTheHour(p: Post, q: Post)
    requires q.at / 3_600_000 == p.at / 3_600_000
    ensures HourOf(q) == HourOf(p)
  {
    DaysOfHours(p.at);
    DaysOfHours(q.at);
  }

  // ---- What the ranking means ----

  function Engagement(): Post -> int { (p: Post) => p.engagement }

  function CountIn(h: Hour): (f: Post -> int)
    ensures forall p :: f(p) == if HourOf(p) == h then 1 else 0
  {
    Within(HourOf, One(), h)
  }

  function TotalIn(h: Hour): (f: Post -> int)
    ensures forall p: Post :: f(p) == if HourOf(p) == h then p.engagement else 0
  {
    Within(HourOf, Engagement(), h)
  }

  function Average(total: int, count: nat): real
    requires count > 0
  {
    total as real / count as real
  }

  /** An hour some post fell in, with the number of its posts and their average engagement. */
  ghost predicate IsSlot(posts: seq<Post>, s: Slot)
  {
    && s.samples > 0
    && s.samples == Sum(CountIn(s.hour), posts)
    && s.average == Average(Sum(TotalIn(s.hour), posts), s.samples)
  }

  /** The comparator: higher average, then more samples, then earlier in the week. */
  predicate Precedes(a: Slot, b: Slot)
  {
    if a.average != b.average then a.average > b.average
    else if a.samples != b.samples then a.samples > b.samples
    else if a.hour.day != b.hour.day then a.hour.day < b.hour.day
    else a.hour.hour < b.hour.hour
  }

  function Comparator(): (Slot, Slot) -> bool { (a: Slot, b: Slot) => Precedes(a, b) }

  ghost predicate Descending(slots: seq<Slot>)
  {
    forall i, j :: 0 <= i < j < |slots| ==> Precedes(slots[i], slots[j])
  }

  /** All slots of the posts, best first. */
  ghost predicate IsRanking(posts: seq<Post>, slots: seq<Slot>)
  {
    Descending(slots) && forall s :: s in slots <==> IsSlot(posts, s)
  }

  lemma ComparatorIsOrder()
    ensures WeakOrder(Comparator())
  {
  }

  /** The comparator is a strict total order: two slots neither of which precedes the other are one. */
  lemma PrecedesTotal(a: Slot, b: Slot)
    ensures !(Precedes(a, b) && Precedes(b, a))
    ensures !Precedes(a, b) && !Precedes(b, a) <==> a == b
  {
  }

  /** A descending sequence is determined by its elements. */
  lemma {:induction false} DescendingUnique(xs: seq<Slot>, ys: seq<Slot>)
    requires Descending(xs) && Descending(ys)
    requires forall s :: s in xs <==> s in ys
    ensures xs == ys
  {
    assert (|xs| != 0 ==> xs[0] in xs) && (|ys| != 0 ==> ys[0] in ys);
    if |xs| != 0 && |ys| != 0 {
      var x, y := xs[|xs| - 1], ys[|ys| - 1];
      assert x in ys && y in xs;
      assert x == y;
      var front, back := xs[..|xs| - 1], ys[..|ys| - 1];
      forall s ensures s in front <==> s in back {
        assert s in xs <==> s in front || s == x;
        assert s in ys <==> s in back || s == x;
        assert x !in front && x !in back;
      }
      DescendingUnique(front, back);
      assert xs == front + [x] && ys == back + [x];
    }
  }

  /** The ranking depends on the multiset of posts only. */
  lemma RankingUnique(posts: seq<Post>, posts': seq<Post>, xs: seq<Slot>, ys: seq<Slot>)
    requires multiset(posts) == multiset(posts')
    requires IsRanking(posts, xs) && IsRanking(posts', ys)
    ensures xs == ys
  {
    forall s ensures s in xs <==> s in ys {
      SumPermutation(CountIn(s.hour), posts, posts');
      SumPermutation(TotalIn(s.hour), posts, posts');
      assert IsSlot(posts, s) <==> IsSlot(posts', s);
    }
    DescendingUnique(xs, ys);
  }

  /** What is dropped ranks below everything kept, and nothing else is missing. */
  lemma SliceKeepsBest(posts: seq<Post>, slots: seq<Slot>, n: nat, s: Slot)
    requires IsRanking(posts, slots) && IsSlot(posts, s) && s !in Slice(slots, n)
    ensures |Slice(slots, n)| == n
    ensures forall k :: 0 <= k < n ==> Precedes(Slice(slots, n)[k], s)
    ensures forall k :: 0 <= k < n ==>
              var kept := Slice(slots, n)[k];
              kept.average > s.average || (kept.average == s.average && kept.samples >= s.samples)
  {
    assert s in slots;
  }

  lemma SliceRanks(posts: seq<Post>, slots: seq<Slot>, n: int)
    requires IsRanking(posts, slots)
    ensures var best := Slice(slots, n);
            && Descending(best) && (forall s :: s in best ==> IsSlot(posts, s))
            && (n >= 0 ==> |best| <= n && forall s :: IsSlot(posts, s) && s !in best ==>
                  |best| == n && forall k :: 0 <= k < n ==> Precedes(best[k], s))
  {
    if n >= 0 {
      forall s | IsSlot(posts, s) && s !in Slice(slots, n)
        ensures |Slice(slots, n)| == n && forall k :: 0 <= k < n ==> Precedes(Slice(slots, n)[k], s)
      {
        SliceKeepsBest(posts, slots, n, s);
      }
    }
  }

  // ---- Conservation ----

  function Samples(): Slot -> int { (s: Slot) => s.samples }

  function Hours(slots: seq<Slot>): (hours: seq<Hour>)
    ensures |hours| == |slots| && forall k :: 0 <= k < |slots| ==> hours[k] == slots[k].hour
  {
    seq(|slots|, k requires 0 <= k < |slots| => slots[k].hour)
  }

  lemma RankedHoursDiffer(posts: seq<Post>, slots: seq<Slot>, i: nat, j: nat)
    requires IsRanking(posts, slots) && i < j < |slots|
    ensures slots[i].hour != slots[j].hour
  {
    assert slots[i] in slots && slots[j] in slots;
  }

  lemma {:induction false} SamplesAreCounts(posts: seq<Post>, slots: seq<Slot>)
    requires forall s :: s in slots ==> IsSlot(posts, s)
    ensures Sum(Samples(), slots) == Sum(GroupSum(HourOf, One(), posts), Hours(slots))
  {
    if |slots| != 0 {
      assert slots[|slots| - 1] in slots;
      SamplesAreCounts(posts, slots[..|slots| - 1]);
      assert Hours(slots)[..|slots| - 1] == Hours(slots[..|slots| - 1]);
    }
  }

  /** No post is lost or counted twice: the samples of all slots are the posts, their totals all engagement. */
  lemma RankingConserves(posts: seq<Post>, slots: seq<Slot>)
    requires IsRanking(posts, slots)
    ensures Sum(Samples(), slots) == |posts|
    ensures Sum(GroupSum(HourOf, Engagement(), posts), Hours(slots)) == Sum(Engagement(), posts)
  {
    forall i, j | 0 <= i < j < |slots| ensures Hours(slots)[i] != Hours(slots)[j] {
      RankedHoursDiffer(posts, slots, i, j);
    }
    forall p | p in posts ensures HourOf(p) in Hours(slots) {
      EveryHourRanked(posts, slots, p);
    }
    GroupsConserve(HourOf, One(), posts, Hours(slots));
    GroupsConserve(HourOf, Engagement(), posts, Hours(slots));
    SumOfOnes(posts);
    SamplesAreCounts(posts, slots);
  }

  lemma EveryHourRanked(posts: seq<Post>, slots: seq<Slot>, p: Post)
    requires IsRanking(posts, slots) && p in posts
    ensures HourOf(p) in Hours(slots)
  {
    var h := HourOf(p);
    CountPositive(HourOf, h, posts);
    var s := Slot(h, Average(Sum(TotalIn(h), posts), Sum(CountIn(h), posts)), Sum(CountIn(h), posts));
    assert IsSlot(posts, s);
    var k :| 0 <= k < |slots| && slots[k] == s;
    assert Hours(slots)[k] == h;
  }

  // ---- The computation ----

  /** What the map holds about one hour. */
  ghost predicate BucketOk(posts: seq<Post>, buckets: map<Hour, Bucket>, h: Hour)
  {
    var count, total := Sum(CountIn(h), posts), Sum(TotalIn(h), posts);
    && count >= 0
    && (h in buckets <==> count > 0)
    && (if h in buckets then buckets[h] == Bucket(total, count) else total == 0)
  }

  /** The map after the posts so far, with its keys in order of insertion. */
  ghost predicate Bucketed(posts: seq<Post>, order: seq<Hour>, buckets: map<Hour, Bucket>)
  {
    && (forall h :: h in order <==> h in buckets)
    && (forall i, j :: 0 <= i < j < |order| ==> order[i] != order[j])
    && (forall h :: BucketOk(posts, buckets, h))
  }

  lemma HourSnoc(posts: seq<Post>, buckets: map<Hour, Bucket>, p: Post, g: Hour)
    requires BucketOk(posts, buckets, g)
    ensures var h := HourOf(p);
            var b := if h in buckets then buckets[h] else Bucket(0, 0);
            BucketOk(posts + [p], buckets[h := Bucket(b.total + p.engagement, b.count + 1)], g)
  {
    SumSnoc(CountIn(g), posts, p);
    SumSnoc(TotalIn(g), posts, p);
  }

  lemma BucketedSnoc(posts: seq<Post>, order: seq<Hour>, buckets: map<Hour, Bucket>, p: Post)
    requires Bucketed(posts, order, buckets)
    ensures var h := HourOf(p);
            var b := if h in buckets then buckets[h] else Bucket(0, 0);
            Bucketed(posts + [p], if h in buckets then order else order + [h],
                     buckets[h := Bucket(b.total + p.engagement, b.count + 1)])
  {
    var h := HourOf(p);
    var b := if h in buckets then buckets[h] else Bucket(0, 0);
    var posts', buckets' := posts + [p], buckets[h := Bucket(b.total + p.engagement, b.count + 1)];
    forall g ensures BucketOk(posts', buckets', g) {
      assert BucketOk(posts, buckets, g);
      HourSnoc(posts, buckets, p, g);
    }
  }

  lemma BucketedNext(posts: seq<Post>, i: nat, order: seq<Hour>, buckets: map<Hour, Bucket>)
    requires i < |posts| && Bucketed(posts[..i], order, buckets)
    ensures var h := HourOf(posts[i]);
            var b := if h in buckets then buckets[h] else Bucket(0, 0);
            Bucketed(posts[..i + 1], if h in buckets then order else order + [h],
                     buckets[h := Bucket(b.total + posts[i].engagement, b.count + 1)])
  {
    BucketedSnoc(posts[..i], order, buckets, posts[i]);
    PrefixSnoc(posts, i);
  }

  /** The slots of the buckets, in order of insertion. */
  lemma SlotsRanked(posts: seq<Post>, order: seq<Hour>, buckets: map<Hour, Bucket>, slots: seq<Slot>)
    requires Bucketed(posts, order, buckets) && |slots| == |order|
    requires forall k :: 0 <= k < |order| ==>
        buckets[order[k]].count > 0 && slots[k] == SlotFor(order[k], buckets[order[k]])
    ensures IsRanking(posts, StableSort(Comparator(), slots))
  {
    SlotsOf(posts, order, buckets, slots);
    SortedIsRanking(posts, slots);
  }

  function SlotFor(h: Hour, b: Bucket): Slot
    requires b.count > 0
  {
    Slot(h, Average(b.total, b.count), b.count)
  }

  lemma SlotsOf(posts: seq<Post>, order: seq<Hour>, buckets: map<Hour, Bucket>, slots: seq<Slot>)
    requires Bucketed(posts, order, buckets) && |slots| == |order|
    requires forall k :: 0 <= k < |order| ==>
        buckets[order[k]].count > 0 && slots[k] == SlotFor(order[k], buckets[order[k]])
    ensures forall s :: s in slots <==> IsSlot(posts, s)
    ensures forall i, j :: 0 <= i < j < |slots| ==> slots[i] != slots[j]
  {
    forall k | 0 <= k < |order| ensures IsSlot(posts, slots[k]) {
      assert BucketOk(posts, buckets, order[k]);
    }
    forall s | IsSlot(posts, s) ensures s in slots {
      assert BucketOk(posts, buckets, s.hour);
      var k :| 0 <= k < |order| && order[k] == s.hour;
      assert slots[k] == s;
    }
  }

  /** Sorting the slots of the buckets gives the ranking. */
  lemma SortedIsRanking(posts: seq<Post>, slots: seq<Slot>)
    requires forall s :: s in slots <==> IsSlot(posts, s)
    requires forall i, j :: 0 <= i < j < |slots| ==> slots[i] != slots[j]
    ensures IsRanking(posts, StableSort(Comparator(), slots))
  {
    var sorted := StableSort(Comparator(), slots);
    ComparatorIsOrder();
    SortSorted(Comparator(), slots);
    SortPermutes(Comparator(), slots);
    DistinctOnce(slots);
    forall s ensures s in sorted <==> s in slots {
      assert s in multiset(sorted) <==> s in multiset(slots);
    }
    forall i, j | 0 <= i < j < |sorted| ensures Precedes(sorted[i], sorted[j]) {
      OnceDistinct(sorted, i, j);
      PrecedesTotal(sorted[i], sorted[j]);
    }
  }

  /** What is in a slot, and what it means for one to rank before another. */
  lemma RankedMeans(posts: seq<Post>, s: Slot, t: Slot)
    ensures IsSlot(posts, s) <==>
              && s.samples == Sum(CountIn(s.hour), posts) && s.samples > 0
              && s.average * s.samples as real == Sum(TotalIn(s.hour), posts) as real
    ensures Precedes(s, t) <==>
              || s.average > t.average
              || (s.average == t.average && s.samples > t.samples)
              || (s.average == t.average && s.samples == t.samples
                  && (s.hour.day < t.hour.day || (s.hour.day == t.hour.day && s.hour.hour < t.hour.hour)))
  {
    if s.samples > 0 && s.samples == Sum(CountIn(s.hour), posts) {
      AverageIs(Sum(TotalIn(s.hour), posts), s.samples, s.average);
    }
  }

  lemma AverageIs(total: int, count: nat, average: real)
    requires count > 0
    ensures average == Average(total, count) <==> average * count as real == total as real
  {
  }

  lemma BestMeans(posts: seq<Post>, slots: seq<Slot>, n: int)
    requires IsRanking(posts, slots)
    ensures var best := Slice(slots, n);
            && (forall s :: s in best ==>
                  && s.samples == Sum(CountIn(s.hour), posts) && s.samples > 0
                  && s.average * s.samples as real == Sum(TotalIn(s.hour), posts) as real)
            && (forall i, j :: 0 <= i < j < |best| ==>
                  || best[i].average > best[j].average
                  || (best[i].average == best[j].average && best[i].samples > best[j].samples)
                  || (best[i].average == best[j].average && best[i].samples == best[j].samples
                      && (best[i].hour.day < best[j].hour.day
                          || (best[i].hour.day == best[j].hour.day && best[i].hour.hour < best[j].hour.hour))))
            && (n >= 0 ==> forall s: Slot ::
                  && s.samples == Sum(CountIn(s.hour), posts) && s.samples > 0
                  && s.average * s.samples as real == Sum(TotalIn(s.hour), posts) as real && s !in best ==>
                    && |best| == n
                    && forall k :: 0 <= k < n ==>
                         || best[k].average > s.average
                         || (best[k].average == s.average && best[k].samples > s.samples)
                         || (best[k].average == s.average && best[k].samples == s.samples
                             && (best[k].hour.day < s.hour.day
                                 || (best[k].hour.day == s.hour.day && best[k].hour.hour < s.hour.hour))))
  {
    var best := Slice(slots, n);
    SliceRanks(posts, slots, n);
    forall s | s in best
      ensures s.average * s.samples as real == Sum(TotalIn(s.hour), posts) as real
    {
      RankedMeans(posts, s, s);
    }
    forall i, j | 0 <= i < j < |best| ensures Precedes(best[i], best[j]) {
    }
    if n >= 0 {
      forall s: Slot | s.samples == Sum(CountIn(s.hour), posts) && s.samples > 0
                       && s.average * s.samples as real == Sum(TotalIn(s.hour), posts) as real && s !in best
        ensures |best| == n && forall k :: 0 <= k < n ==> Precedes(best[k], s)
      {
        RankedMeans(posts, s, s);
      }
    }
  }

  /** Buckets by hour, one slot each, sorted. */
  method RankHours(posts: seq<Post>) returns (sorted: seq<Slot>)
    ensures IsRanking(posts, sorted)
  {
    var order: seq<Hour>, buckets: map<Hour, Bucket> := [], map[];
    for i := 0 to |posts|
      invariant Bucketed(posts[..i], order, buckets)
    {
      BucketedNext(posts, i, order, buckets);
      var h := HourOf(posts[i]);
      var bucket := if h in buckets then buckets[h] else Bucket(0, 0);
      order := if h in buckets then order else order + [h];
      buckets := buckets[h := Bucket(bucket.total + posts[i].engagement, bucket.count + 1)];
    }
    WholePrefix(posts);
    forall k | 0 <= k < |order| ensures order[k] in buckets && buckets[order[k]].count > 0 {
      assert BucketOk(posts, buckets, order[k]);
    }
    var slots := seq(|order|, k requires 0 <= k < |order| => SlotFor(order[k], buckets[order[k]]));
    SlotsRanked(posts, order, buckets, slots);
    sorted := StableSort(Comparator(), slots);
  }

  method RankBestTimes(posts: seq<Post>, topN: int) returns (best: seq<Slot>)
    ensures exists ranking :: IsRanking(posts, ranking) && best == Slice(ranking, topN)
    ensures topN >= 0 ==> |best| <= topN
    // every slot has its hour's posts and their engagement
    ensures forall s :: s in best ==>
              && s.samples == Sum(CountIn(s.hour), posts) && s.samples > 0
              && s.average * s.samples as real == Sum(TotalIn(s.hour), posts) as real
    // higher averages come first, then more samples, then the earlier hour of the week
    ensures forall i, j :: 0 <= i < j < |best| ==>
              || best[i].average > best[j].average
              || (best[i].average == best[j].average && best[i].samples > best[j].samples)
              || (best[i].average == best[j].average && best[i].samples == best[j].samples
                  && (best[i].hour.day < best[j].hour.day
                      || (best[i].hour.day == best[j].hour.day && best[i].hour.hour < best[j].hour.hour)))
    // an hour with posts is left out only for as many better ones as were asked for
    ensures topN >= 0 ==> forall s: Slot ::
              && s.samples == Sum(CountIn(s.hour), posts) && s.samples > 0
              && s.average * s.samples as real == Sum(TotalIn(s.hour), posts) as real && s !in best ==>
                && |best| == topN
                && forall k :: 0 <= k < topN ==>
                     || best[k].average > s.average
                     || (best[k].average == s.average && best[k].samples > s.samples)
                     || (best[k].average == s.average && best[k].samples == s.samples
                         && (best[k].hour.day < s.hour.day
                             || (best[k].hour.day == s.hour.day && best[k].hour.hour < s.hour.hour)))
  {
    var sorted := RankHours(posts);
    best := Slice(sorted, topN);
    BestMeans(posts, sorted, topN);
  }
}
