/** Parsing the hashtags a language model returns. */
module Hashtags {
  import opened Sequences
  import opened Text

  // ---- Tokens ----

  /** `split(/\s+/)`: runs of white space separate; an end of the text always ends a token, if an empty one. */
  function Split(s: string): (tokens: seq<string>)
    ensures |tokens| >= 1
  {
    if |s| == 0 then [""]
    else
      var n := |s| - 1;
      var front := Split(s[..n]);
      if IsSpace(s[n]) then if n > 0 && IsSpace(s[n - 1]) then front else front + [""]
      else front[|front| - 1 := front[|front| - 1] + [s[n]]]
  }

  predicate IsTagChar(c: char)
  {
    c == '#' || c == '_' || '0' <= c <= '9' || 'a' <= c <= 'z' || 'A' <= c <= 'Z'
  }

  /** `replace(/[^#0-9a-zA-Z_]/g, '')` */
  function Clean(token: string): string
  {
    if |token| == 0 then ""
    else
      var front := Clean(token[..|token| - 1]);
      if IsTagChar(token[|token| - 1]) then front + [token[|token| - 1]] else front
  }

  predicate IsTag(t: string) { |t| >= 2 && t[0] == '#' && forall k :: 0 <= k < |t| ==> IsTagChar(t[k]) }

  function Folded(t: string): (r: string)
    ensures |r| == |t|
  {
    seq(|t|, k requires 0 <= k < |t| => Lower(t[k]))
  }

  /** The valid tags of the tokens, in order, with repetitions. */
  function TagsOf(tokens: seq<string>): seq<string>
  {
    if |tokens| == 0 then []
    else
      var front, t := TagsOf(tokens[..|tokens| - 1]), Clean(tokens[|tokens| - 1]);
      if IsTag(t) then front + [t] else front
  }

  predicate Known(tags: seq<string>, t: string) { exists k :: 0 <= k < |tags| && Folded(tags[k]) == Folded(t) }

  /** The first occurrence of each tag, up to letter case. */
  function Firsts(tags: seq<string>): seq<string>
  {
    if |tags| == 0 then []
    else
      var front, t := tags[..|tags| - 1], tags[|tags| - 1];
      if Known(front, t) then Firsts(front) else Firsts(front) + [t]
  }

  /** All distinct valid tags of a text. */
  function TagsIn(raw: string): seq<string> { Firsts(TagsOf(Split(raw))) }

  function Take<T>(xs: seq<T>, n: nat): seq<T> { if n <= |xs| then xs[..n] else xs }

  /** The bound is tested after a tag is added: a limit below one still lets one tag through. */
  function Bound(limit: int): nat { if limit < 1 then 1 else limit }

  // ---- What first occurrences are ----

  lemma CleanedAreTagChars(token: string)
    ensures forall k :: 0 <= k < |Clean(token)| ==> IsTagChar(Clean(token)[k])
  {
  }

  /** Positions whose tag was not seen before, in order. */
  ghost predicate FirstPositions(tags: seq<string>, o: seq<nat>)
  {
    && (forall j, k :: 0 <= j < k < |o| ==> o[j] < o[k])
    && (forall i :: i in o <==> 0 <= i < |tags| && !Known(tags[..i], tags[i]))
  }

  lemma FirstPositionsSnoc(tags: seq<string>, o: seq<nat>, t: string)
    requires FirstPositions(tags, o)
    ensures FirstPositions(tags + [t], if Known(tags, t) then o else o + [|tags|])
  {
    var more, o' := tags + [t], if Known(tags, t) then o else o + [|tags|];
    forall i ensures i in o' <==> 0 <= i < |more| && !Known(more[..i], more[i]) {
      assert i in o' <==> i in o || (i == |tags| && !Known(tags, t));
      if 0 <= i < |tags| {
        assert more[..i] == tags[..i];
      }
      assert more[..|tags|] == tags;
    }
    forall k | 0 <= k < |o| ensures o[k] < |tags| {
      assert o[k] in o;
    }
  }

  ghost predicate KeptAt(tags: seq<string>, o: seq<nat>)
  {
    |Firsts(tags)| == |o| && forall k :: 0 <= k < |o| ==> o[k] < |tags| && Firsts(tags)[k] == tags[o[k]]
  }

  lemma KeptSnoc(tags: seq<string>, o: seq<nat>, t: string)
    requires KeptAt(tags, o)
    ensures KeptAt(tags + [t], if Known(tags, t) then o else o + [|tags|])
  {
    FirstsSnoc(tags, t);
  }

  /** The kept tags are those at the first positions, in their order. */
  lemma {:induction false} FirstsAreFirst(tags: seq<string>) returns (o: seq<nat>)
    ensures FirstPositions(tags, o) && KeptAt(tags, o)
  {
    if |tags| == 0 {
      return [];
    }
    var front, t := tags[..|tags| - 1], tags[|tags| - 1];
    o := FirstsAreFirst(front);
    FirstPositionsSnoc(front, o, t);
    KeptSnoc(front, o, t);
    assert tags == front + [t];
    o := if Known(front, t) then o else o + [|front|];
  }

  /** Every tag of the input is kept, up to letter case, and no two kept tags are the same. */
  lemma {:induction false} FirstsCover(tags: seq<string>, t: string)
    ensures Known(Firsts(tags), t) <==> Known(tags, t)
  {
    if |tags| != 0 {
      var front, last := tags[..|tags| - 1], tags[|tags| - 1];
      FirstsCover(front, t);
      FirstsCover(front, last);
      assert Known(tags, t) <==> Known(front, t) || Folded(last) == Folded(t);
      KnownSnoc(Firsts(front), last, t);
    }
  }

  lemma KnownSnoc(tags: seq<string>, last: string, t: string)
    ensures Known(tags + [last], t) <==> Known(tags, t) || Folded(last) == Folded(t)
  {
    if Folded(last) == Folded(t) {
      assert (tags + [last])[|tags|] == last;
    }
    if k :| 0 <= k < |tags| && Folded(tags[k]) == Folded(t) {
      assert (tags + [last])[k] == tags[k];
    }
  }

  ghost predicate AllDifferent(tags: seq<string>)
  {
    forall j, k :: 0 <= j < k < |tags| ==> Folded(tags[j]) != Folded(tags[k])
  }

  lemma {:induction false} FirstsDiffer(tags: seq<string>)
    ensures AllDifferent(Firsts(tags))
  {
    if |tags| != 0 {
      FirstsDiffer(tags[..|tags| - 1]);
      FirstsCover(tags[..|tags| - 1], tags[|tags| - 1]);
    }
  }

  lemma {:induction false} FirstsAreTags(tokens: seq<string>)
    ensures forall k :: 0 <= k < |TagsOf(tokens)| ==> IsTag(TagsOf(tokens)[k])
    ensures forall k :: 0 <= k < |Firsts(TagsOf(tokens))| ==> IsTag(Firsts(TagsOf(tokens))[k])
  {
    if |tokens| != 0 {
      FirstsAreTags(tokens[..|tokens| - 1]);
    }
  }

  // ---- The loop ----

  lemma TagsNext(tokens: seq<string>, i: nat)
    requires i < |tokens|
    ensures TagsOf(tokens[..i + 1])
        == if IsTag(Clean(tokens[i])) then TagsOf(tokens[..i]) + [Clean(tokens[i])] else TagsOf(tokens[..i])
  {
    PrefixSnoc(tokens, i);
    assert tokens[..i + 1][..i] == tokens[..i];
  }

  lemma FirstsSnoc(tags: seq<string>, t: string)
    ensures Firsts(tags + [t]) == if Known(tags, t) then Firsts(tags) else Firsts(tags) + [t]
  {
    assert (tags + [t])[..|tags|] == tags;
  }

  /** `Firsts` only grows at its end. */
  lemma {:induction false} FirstsGrow(tokens: seq<string>, i: nat)
    requires i <= |tokens|
    ensures Firsts(TagsOf(tokens[..i])) <= Firsts(TagsOf(tokens))
    decreases |tokens| - i
  {
    if i < |tokens| {
      TagsNext(tokens, i);
      FirstsSnoc(TagsOf(tokens[..i]), Clean(tokens[i]));
      FirstsGrow(tokens, i + 1);
    } else {
      WholePrefix(tokens);
    }
  }

  function KeysOf(tags: seq<string>): set<string> { set k | 0 <= k < |tags| :: Folded(tags[k]) }

  lemma KeysSnoc(tags: seq<string>, t: string)
    ensures KeysOf(tags + [t]) == KeysOf(tags) + {Folded(t)}
    ensures Folded(t) in KeysOf(tags) <==> Known(tags, t)
  {
    forall k | 0 <= k < |tags| ensures (tags + [t])[k] == tags[k] {
    }
    assert (tags + [t])[|tags|] == t;
    forall key | key in KeysOf(tags) ensures key in KeysOf(tags + [t]) {
      var k :| 0 <= k < |tags| && Folded(tags[k]) == key;
      assert Folded((tags + [t])[k]) == key;
    }
  }

  /** The state of the loop after `i` tokens. */
  ghost predicate Parsed(tokens: seq<string>, i: nat, result: seq<string>, seen: set<string>)
  {
    i <= |tokens| && result == Firsts(TagsOf(tokens[..i])) && seen == KeysOf(result)
  }

  lemma ParsedNext(tokens: seq<string>, i: nat, result: seq<string>, seen: set<string>, cleaned: string)
    requires i < |tokens| && Parsed(tokens, i, result, seen) && cleaned == Clean(tokens[i])
    ensures !IsTag(cleaned) || Folded(cleaned) in seen ==> Parsed(tokens, i + 1, result, seen)
    ensures IsTag(cleaned) && Folded(cleaned) !in seen ==>
        Parsed(tokens, i + 1, result + [cleaned], seen + {Folded(cleaned)})
    ensures IsTag(cleaned) <==> |cleaned| >= 2 && cleaned[0] == '#'
  {
    TagsNext(tokens, i);
    CleanedAreTagChars(tokens[i]);
    FirstsSnoc(TagsOf(tokens[..i]), cleaned);
    FirstsCover(TagsOf(tokens[..i]), cleaned);
    KeysSnoc(result, cleaned);
  }

  lemma ParsedEnough(tokens: seq<string>, i: nat, result: seq<string>, seen: set<string>, n: nat)
    requires Parsed(tokens, i, result, seen)
    requires |result| == n || (i == |tokens| && |result| < n)
    ensures result == Take(Firsts(TagsOf(tokens)), n)
  {
    FirstsGrow(tokens, i);
    WholePrefix(tokens);
  }

  /** What cleaning keeps: character by character, letters, digits, `#` and `_`. */
  lemma CleanKeeps(a: string, c: char, b: string)
    ensures Clean("") == ""
    ensures Clean(a + [c] + b)
            == Clean(a)
               + (if c == '#' || c == '_' || '0' <= c <= '9' || 'a' <= c <= 'z' || 'A' <= c <= 'Z' then [c] else "")
               + Clean(b)
  {
    CleanConcat(a + [c], b);
    assert (a + [c])[..|a|] == a;
  }

  lemma {:induction false} CleanConcat(a: string, b: string)
    ensures Clean(a + b) == Clean(a) + Clean(b)
  {
    if |b| == 0 {
      assert a + b == a;
    } else {
      var n := |b| - 1;
      CleanConcat(a, b[..n]);
      assert (a + b)[..|a + b| - 1] == a + b[..n];
    }
  }

  /** A text without white space is one token. */
  lemma SplitNothing(w: string)
    requires forall k :: 0 <= k < |w| ==> !IsSpace(w[k])
    ensures Split(w) == [w]
  {
    SplitWord("", w);
    assert "" + w == w;
  }

  lemma {:induction false} SplitGap(a: string, w: string)
    requires |w| >= 1 && (forall k :: 0 <= k < |w| ==> IsSpace(w[k])) && (|a| == 0 || !IsSpace(a[|a| - 1]))
    ensures Split(a + w) == Split(a) + [""]
  {
    var n := |w| - 1;
    assert (a + w)[..|a + w| - 1] == a + w[..n];
    if n == 0 {
      assert a + w[..n] == a;
    } else {
      SplitGap(a, w[..n]);
    }
  }

  lemma SplitSnoc(s: string, c: char)
    ensures var front := Split(s);
            Split(s + [c]) == if !IsSpace(c) then front[|front| - 1 := front[|front| - 1] + [c]]
                              else if |s| > 0 && IsSpace(s[|s| - 1]) then front else front + [""]
  {
    assert (s + [c])[..|s|] == s;
  }

  lemma SplitGrows(before: seq<string>, s: string, b: string, c: char)
    requires Split(s) == before + Split(b)
    requires if |b| == 0 then !IsSpace(c) else |s| > 0 && s[|s| - 1] == b[|b| - 1]
    ensures Split(s + [c]) == before + Split(b + [c])
  {
    SplitSnoc(s, c);
    SplitSnoc(b, c);
  }

  /** White space, however long, separates: the tokens before it, then those behind it. */
  lemma {:induction false} SplitBetween(a: string, w: string, b: string)
    requires |w| >= 1 && (forall k :: 0 <= k < |w| ==> IsSpace(w[k]))
    requires (|a| == 0 || !IsSpace(a[|a| - 1])) && (|b| == 0 || !IsSpace(b[0]))
    ensures Split(a + w + b) == Split(a) + Split(b)
  {
    if |b| == 0 {
      SplitGap(a, w);
      assert a + w + b == a + w;
    } else {
      var n := |b| - 1;
      SplitBetween(a, w, b[..n]);
      assert a + w + b == a + w + b[..n] + [b[n]] && b == b[..n] + [b[n]];
      assert n > 0 ==> (a + w + b[..n])[|a + w + b[..n]| - 1] == b[n - 1];
      SplitGrows(Split(a), a + w + b[..n], b[..n], b[n]);
    }
  }

  /** What cleaning leaves of one of the tokens. */
  ghost predicate LeftOfToken(raw: string, t: string) { exists token :: token in Split(raw) && Clean(token) == t }

  /** A tag that is found is what cleaning leaves of a token, begins with `#`, and says more. */
  lemma FoundMeans(raw: string, t: string)
    requires t in TagsIn(raw)
    ensures |t| >= 2 && t[0] == '#'
    ensures forall k :: 0 <= k < |t| ==>
              t[k] == '#' || t[k] == '_' || '0' <= t[k] <= '9' || 'a' <= t[k] <= 'z' || 'A' <= t[k] <= 'Z'
    ensures LeftOfToken(raw, t)
  {
    FirstsWithin(TagsOf(Split(raw)), t);
    TagsFrom(Split(raw), t);
  }

  /** And every token that cleaning makes a tag is found, up to letter case, once. */
  lemma FoundAll(raw: string, token: string)
    requires token in Split(raw) && |Clean(token)| >= 2 && Clean(token)[0] == '#'
    ensures exists i :: 0 <= i < |TagsIn(raw)| && SameWord(TagsIn(raw)[i], Clean(token))
  {
    var tags, t := TagsOf(Split(raw)), Clean(token);
    CleanedAreTagChars(token);
    TagsFrom(Split(raw), t);
    assert Known(tags, t);
    FirstsCover(tags, t);
    var k :| 0 <= k < |TagsIn(raw)| && Folded(TagsIn(raw)[k]) == Folded(t);
    SameFolded(TagsIn(raw)[k], t);
  }

  lemma FoundOnce(raw: string, i: nat, j: nat)
    requires i < j < |TagsIn(raw)|
    ensures !SameWord(TagsIn(raw)[i], TagsIn(raw)[j])
  {
    FirstsDiffer(TagsOf(Split(raw)));
    SameFolded(TagsIn(raw)[i], TagsIn(raw)[j]);
  }

  /** The same letters and signs, in either case. */
  predicate SameWord(s: string, t: string)
  {
    |s| == |t| && forall k :: 0 <= k < |s| ==> Upper(s[k]) == Upper(t[k])
  }

  lemma SameFolded(s: string, t: string)
    ensures Folded(s) == Folded(t) <==> SameWord(s, t)
  {
    forall k | 0 <= k < |s| && k < |t| ensures Lower(s[k]) == Lower(t[k]) <==> Upper(s[k]) == Upper(t[k]) {
      CasesMatch(s[k], t[k]);
    }
    if Folded(s) == Folded(t) {
      forall k | 0 <= k < |s| ensures Upper(s[k]) == Upper(t[k]) {
        assert Folded(s)[k] == Folded(t)[k];
      }
    }
  }

  lemma {:induction false} TagsFrom(tokens: seq<string>, t: string)
    ensures t in TagsOf(tokens) <==> IsTag(t) && exists token :: token in tokens && Clean(token) == t
  {
    if |tokens| != 0 {
      var n := |tokens| - 1;
      TagsFrom(tokens[..n], t);
      assert tokens == tokens[..n] + [tokens[n]];
      if t in TagsOf(tokens[..n]) {
        var token :| token in tokens[..n] && Clean(token) == t;
        assert token in tokens;
      } else if t in TagsOf(tokens) {
        assert tokens[n] in tokens && Clean(tokens[n]) == t;
      }
    }
  }

  lemma {:induction false} FirstsWithin(tags: seq<string>, t: string)
    requires t in Firsts(tags)
    ensures t in tags
  {
    var n := |tags| - 1;
    if t in Firsts(tags[..n]) {
      FirstsWithin(tags[..n], t);
    }
  }

  lemma TakenMean(raw: string, n: nat)
    ensures |Take(TagsIn(raw), n)| <= n
    ensures forall i :: 0 <= i < |Take(TagsIn(raw), n)| ==>
              var t := Take(TagsIn(raw), n)[i];
              && |t| >= 2 && t[0] == '#'
              && forall k :: 0 <= k < |t| ==>
                   t[k] == '#' || t[k] == '_' || '0' <= t[k] <= '9' || 'a' <= t[k] <= 'z' || 'A' <= t[k] <= 'Z'
    ensures forall i :: 0 <= i < |Take(TagsIn(raw), n)| ==>
              LeftOfToken(raw, Take(TagsIn(raw), n)[i])
    ensures forall i, j :: 0 <= i < j < |Take(TagsIn(raw), n)| ==>
              !SameWord(Take(TagsIn(raw), n)[i], Take(TagsIn(raw), n)[j])
  {
    var result := Take(TagsIn(raw), n);
    forall i | 0 <= i < |result|
      ensures |result[i]| >= 2 && result[i][0] == '#'
      ensures forall k :: 0 <= k < |result[i]| ==>
                var c := result[i][k];
                c == '#' || c == '_' || '0' <= c <= '9' || 'a' <= c <= 'z' || 'A' <= c <= 'Z'
    {
      FoundMeans(raw, result[i]);
    }
    forall i | 0 <= i < |result| ensures LeftOfToken(raw, result[i]) {
      FoundMeans(raw, result[i]);
    }
    forall i, j | 0 <= i < j < |result| ensures !SameWord(result[i], result[j]) {
      FoundOnce(raw, i, j);
    }
  }

  method ParseHashtags(raw: string, limit: int) returns (result: seq<string>)
    ensures result == Take(TagsIn(raw), Bound(limit))
    // tags are cleaned words that begin with `#`, no two the same up to case, at most `limit` but one at least
    ensures |result| <= (if limit < 1 then 1 else limit)
    ensures forall i :: 0 <= i < |result| ==>
              var t := result[i];
              && |t| >= 2 && t[0] == '#'
              && forall k :: 0 <= k < |t| ==>
                   t[k] == '#' || t[k] == '_' || '0' <= t[k] <= '9' || 'a' <= t[k] <= 'z' || 'A' <= t[k] <= 'Z'
    ensures forall i :: 0 <= i < |result| ==> LeftOfToken(raw, result[i])
    ensures forall i, j :: 0 <= i < j < |result| ==> !SameWord(result[i], result[j])
  {
    TakenMean(raw, Bound(limit));
    var seen: set<string> := {};
    var tokens := Split(raw);
    result := [];
    for i := 0 to |tokens|
      invariant Parsed(tokens, i, result, seen) && |result| < Bound(limit)
    {
      var cleaned := Clean(tokens[i]);
      ParsedNext(tokens, i, result, seen, cleaned);
      if |cleaned| < 1 || cleaned[0] != '#' || |cleaned| < 2 {
        continue;
      }
      var key := Folded(cleaned);
      if key in seen {
        continue;
      }
      seen := seen + {key};
      result := result + [cleaned];
      if |result| >= limit {
        ParsedEnough(tokens, i + 1, result, seen, Bound(limit));
        return;
      }
    }
    ParsedEnough(tokens, |tokens|, result, seen, Bound(limit));
  }

  /** A larger limit only adds tags at the end; the limit is used up as far as there are tags. */
  lemma LimitsNest(raw: string, n: int, m: int)
    requires 1 <= n <= m
    ensures Take(TagsIn(raw), Bound(n)) <= Take(TagsIn(raw), Bound(m))
    ensures |Take(TagsIn(raw), Bound(n))| == if n <= |TagsIn(raw)| then n else |TagsIn(raw)|
  {
  }

  // ---- Parsing what was joined ----

  /** `join(' ')` */
  function Join(tags: seq<string>): string
  {
    if |tags| == 0 then "" else if |tags| == 1 then tags[0] else Join(tags[..|tags| - 1]) + " " + tags[|tags| - 1]
  }

  lemma {:induction false} CleanTag(t: string)
    requires forall k :: 0 <= k < |t| ==> IsTagChar(t[k])
    ensures Clean(t) == t
  {
    if |t| != 0 {
      CleanTag(t[..|t| - 1]);
      assert t == t[..|t| - 1] + [t[|t| - 1]];
    }
  }

  /** A word appended to a text goes to its last token. */
  lemma {:induction false} SplitWord(s: string, w: string)
    requires forall k :: 0 <= k < |w| ==> !IsSpace(w[k])
    ensures var front := Split(s); Split(s + w) == front[|front| - 1 := front[|front| - 1] + w]
  {
    var front := Split(s);
    if |w| == 0 {
      assert s + w == s && front[|front| - 1] + w == front[|front| - 1];
    } else {
      var v, c := w[..|w| - 1], w[|w| - 1];
      SplitWord(s, v);
      assert (s + w)[..|s + w| - 1] == s + v;
      assert front[|front| - 1] + v + [c] == front[|front| - 1] + w;
    }
  }

  lemma TagHasNoSpace(t: string)
    requires IsTag(t)
    ensures forall k :: 0 <= k < |t| ==> !IsSpace(t[k])
  {
  }

  lemma {:induction false} JoinEnds(tags: seq<string>)
    requires |tags| > 0 && forall k :: 0 <= k < |tags| ==> IsTag(tags[k])
    ensures |Join(tags)| > 0 && !IsSpace(Join(tags)[|Join(tags)| - 1])
  {
    TagHasNoSpace(tags[|tags| - 1]);
  }

  lemma {:induction false} SplitJoin(tags: seq<string>)
    requires |tags| > 0 && forall k :: 0 <= k < |tags| ==> IsTag(tags[k])
    ensures Split(Join(tags)) == tags
  {
    var n := |tags| - 1;
    if n == 0 {
      SplitOne(tags[0]);
      assert tags == [tags[0]];
    } else {
      SplitJoin(tags[..n]);
      JoinEnds(tags[..n]);
      SplitOneMore(Join(tags[..n]), tags[n]);
      assert tags == tags[..n] + [tags[n]];
    }
  }

  lemma SplitOne(t: string)
    requires IsTag(t)
    ensures Split(t) == [t]
  {
    TagHasNoSpace(t);
    assert "" + t == t;
    SplitWord("", t);
  }

  lemma SplitOneMore(text: string, t: string)
    requires IsTag(t) && |text| > 0 && !IsSpace(text[|text| - 1])
    ensures Split(text + " " + t) == Split(text) + [t]
  {
    TagHasNoSpace(t);
    SplitSpace(text);
    SplitWord(text + " ", t);
    assert "" + t == t;
    assert (Split(text) + [""])[|Split(text)| := t] == Split(text) + [t];
  }

  lemma SplitSpace(s: string)
    requires |s| > 0 && !IsSpace(s[|s| - 1])
    ensures Split(s + " ") == Split(s) + [""]
  {
    assert (s + " ")[..|s|] == s;
  }

  lemma {:induction false} TagsOfTags(tags: seq<string>)
    requires forall k :: 0 <= k < |tags| ==> IsTag(tags[k])
    ensures TagsOf(tags) == tags
  {
    if |tags| != 0 {
      TagsOfTags(tags[..|tags| - 1]);
      CleanTag(tags[|tags| - 1]);
      assert tags == tags[..|tags| - 1] + [tags[|tags| - 1]];
    }
  }

  lemma {:induction false} FirstsOfDifferent(tags: seq<string>)
    requires AllDifferent(tags)
    ensures Firsts(tags) == tags
  {
    if |tags| != 0 {
      FirstsOfDifferent(tags[..|tags| - 1]);
      assert tags == tags[..|tags| - 1] + [tags[|tags| - 1]];
    }
  }

  /** Joining a result with spaces and parsing it again gives it back. */
  lemma ParseJoined(raw: string, limit: int)
    ensures var result := Take(TagsIn(raw), Bound(limit)); Take(TagsIn(Join(result)), Bound(limit)) == result
  {
    var result := Take(TagsIn(raw), Bound(limit));
    FirstsAreTags(Split(raw));
    FirstsDiffer(TagsOf(Split(raw)));
    if |result| > 0 {
      SplitJoin(result);
      TagsOfTags(result);
      FirstsOfDifferent(result);
    } else {
      assert Split("") == [""];
      assert TagsOf([""]) == [];
    }
  }
}
