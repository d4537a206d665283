/**
Greedy ranking with a diversity bonus (internal/suggestions/engine.go). Each pick takes the item with
the best effective score and removes it by overwriting it with the last remaining one.
*/
module Ranking {
  import opened Wrappers

  datatype HomeVideo = HomeVideo(videoId: string, channelId: string, reasons: seq<string>)

  datatype ScoredVideo = ScoredVideo(home: HomeVideo, score: real)

  const DIVERSITY_WEIGHT := 0.05
  const LOWEST_SCORE := -1000000000.0

  /** The bonus of a channel that was picked `picks` times already. */
  function Bonus(picks: nat): (bonus: real)
    ensures 0.0 < bonus <= DIVERSITY_WEIGHT
  {
    DIVERSITY_WEIGHT * (1.0 / (1 + picks) as real)
  }

  /** How often a channel occurs among the picks made so far. */
  function Picks(chosen: seq<ScoredVideo>, channelId: string): nat {
    if chosen == [] then 0
    else Picks(chosen[..|chosen| - 1], channelId) + if chosen[|chosen| - 1].home.channelId == channelId then 1 else 0
  }

  function Effective(item: ScoredVideo, chosen: seq<ScoredVideo>): real {
    item.score + Bonus(Picks(chosen, item.home.channelId))
  }

  function Homes(chosen: seq<ScoredVideo>): (homes: seq<HomeVideo>)
    ensures |homes| == |chosen| && forall i :: 0 <= i < |chosen| ==> homes[i] == chosen[i].home
  {
    seq(|chosen|, i requires 0 <= i < |chosen| => chosen[i].home)
  }

  /** What is still available after some picks. */
  ghost function Left(items: seq<ScoredVideo>, chosen: seq<ScoredVideo>): multiset<ScoredVideo> {
    multiset(items) - multiset(chosen)
  }

  /** Every pick was available and no item available then had a better effective score. */
  ghost predicate Greedy(items: seq<ScoredVideo>, chosen: seq<ScoredVideo>) {
    forall k :: 0 <= k < |chosen| ==>
      && chosen[k] in Left(items, chosen[..k])
      && forall x :: x in Left(items, chosen[..k]) ==> Effective(x, chosen[..k]) <= Effective(chosen[k], chosen[..k])
  }

  /** Removing position `i` by moving the last element into it. */
  function SwapRemove<T>(s: seq<T>, i: nat): seq<T>
    requires i < |s|
  {
    s[i := s[|s| - 1]][..|s| - 1]
  }

  lemma SwapRemoveTakesOne<T>(s: seq<T>, i: nat)
    requires i < |s|
    ensures multiset(SwapRemove(s, i)) == multiset(s) - multiset{s[i]}
  {
    var last := |s| - 1;
    assert s == s[..last] + [s[last]];
    if i < last {
      assert s[..last] == s[..i] + [s[i]] + s[i + 1..last];
      assert SwapRemove(s, i) == s[..i] + [s[last]] + s[i + 1..last];
    } else {
      assert SwapRemove(s, i) == s[..last];
    }
  }

  /** The inner loop: the first index with the highest effective score, if any beats the floor. */
  method BestIndex(remaining: array<ScoredVideo>, size: nat, picks: map<string, nat>, ghost chosen: seq<ScoredVideo>)
    returns (best: int)
    requires size <= remaining.Length
    requires forall c :: (if c in picks then picks[c] else 0) == Picks(chosen, c)
    ensures -1 <= best < size
    ensures best == -1 ==> forall i :: 0 <= i < size ==> Effective(remaining[i], chosen) <= LOWEST_SCORE
    ensures 0 <= best ==> forall i :: 0 <= i < size ==>
        Effective(remaining[i], chosen) <= Effective(remaining[best], chosen)
    ensures 0 <= best ==> forall i :: 0 <= i < best ==>
        Effective(remaining[i], chosen) < Effective(remaining[best], chosen)
  {
    best := -1;
    var bestScore := LOWEST_SCORE;
    for i := 0 to size
      invariant -1 <= best < i
      invariant bestScore == if best == -1 then LOWEST_SCORE else Effective(remaining[best], chosen)
      invariant forall j :: 0 <= j < i ==> Effective(remaining[j], chosen) <= bestScore
      invariant forall j :: 0 <= j < best ==> Effective(remaining[j], chosen) < bestScore
    {
      var item := remaining[i];
      var count := if item.home.channelId in picks then picks[item.home.channelId] else 0;
      var effective := item.score + Bonus(count);
      if effective > bestScore {
        bestScore := effective;
        best := i;
      }
    }
  }

  /** What the loop keeps true of the remaining items, the pick counts and the picks made so far. */
  ghost predicate Ranked(
    items: seq<ScoredVideo>, remaining: seq<ScoredVideo>, picks: map<string, nat>, chosen: seq<ScoredVideo>) {
    && multiset(remaining) == Left(items, chosen)
    && multiset(chosen) <= multiset(items)
    && Greedy(items, chosen)
    && forall c :: (if c in picks then picks[c] else 0) == Picks(chosen, c)
  }

  /** One pick: the best remaining item is counted and removed. */
  method TakeBest(
    ghost items: seq<ScoredVideo>, remaining: array<ScoredVideo>, size: nat, picks: map<string, nat>,
    ghost chosen: seq<ScoredVideo>)
    returns (selected: Option<ScoredVideo>, counted: map<string, nat>)
    requires 0 < size <= remaining.Length && Ranked(items, remaining[..size], picks, chosen)
    modifies remaining
    ensures selected.Some? ==> Ranked(items, remaining[..size - 1], counted, chosen + [selected.value])
    ensures selected.None? ==> forall x :: x in Left(items, chosen) ==> Effective(x, chosen) <= LOWEST_SCORE
  {
    hide Effective, Greedy, Left, Picks, SwapRemove;
    ghost var before := remaining[..size];
    counted := picks;
    var best := BestIndex(remaining, size, picks, chosen);
    if best == -1 {
      InPrefix(before);
      return None, counted;
    }
    var item := remaining[best];
    var channel := item.home.channelId;
    counted := counted[channel := (if channel in counted then counted[channel] else 0) + 1];
    GreedyStep(items, chosen, before, best);
    assert item in multiset(before);
    TakeOne(items, chosen, item);
    forall c ensures Picks(chosen + [item], c) == Picks(chosen, c) + if channel == c then 1 else 0 {
      PicksStep(chosen, item, c);
    }
    MoveLast(remaining, size, best);
    return Some(item), counted;
  }

  method RankWithDiversity(items: seq<ScoredVideo>, n: int)
    returns (out: seq<HomeVideo>, ghost chosen: seq<ScoredVideo>)
    ensures out == Homes(chosen)
    ensures |out| == |chosen| && forall i :: 0 <= i < |out| ==> out[i] == chosen[i].home
    ensures Greedy(items, chosen) && multiset(chosen) <= multiset(items)
    ensures |out| <= Goal(items, n)
    ensures |out| < Goal(items, n) ==> forall x :: x in Left(items, chosen) ==> Effective(x, chosen) <= LOWEST_SCORE
    ensures (forall i :: 0 <= i < |items| ==> 0.0 <= items[i].score) ==> |out| == Goal(items, n)
  {
    hide Effective, Left, Greedy, Picks, Homes, Ranked;
    out, chosen := [], [];
    NothingChosen(items);
    if items == [] || n <= 0 {
      return;
    }
    var remaining := Copied(items);
    var size := |items|;
    var picks: map<string, nat> := map[];
    while |out| < n && size > 0
      invariant 0 <= size <= remaining.Length && size + |out| == |items| && |out| <= n && |chosen| == |out|
      invariant fresh(remaining) && out == Homes(chosen)
      invariant Ranked(items, remaining[..size], picks, chosen)
      decreases size
    {
      RankedMeans(items, remaining[..size], picks, chosen);
      var selected, counted := TakeBest(items, remaining, size, picks, chosen);
      if selected.None? {
        FloorIsNeverReached(items, chosen);
        return;
      }
      HomesStep(chosen, selected.value);
      chosen := chosen + [selected.value];
      out := out + [selected.value.home];
      picks := counted;
      size := size - 1;
    }
    RankedMeans(items, remaining[..size], picks, chosen);
  }

  method Copied(items: seq<ScoredVideo>) returns (copy: array<ScoredVideo>)
    ensures fresh(copy) && copy.Length == |items| && copy[..|items|] == items
  {
    copy := new ScoredVideo[|items|](i requires 0 <= i < |items| => items[i]);
  }

  lemma RankedMeans(
    items: seq<ScoredVideo>, remaining: seq<ScoredVideo>, picks: map<string, nat>, chosen: seq<ScoredVideo>)
    requires Ranked(items, remaining, picks, chosen)
    ensures Greedy(items, chosen) && multiset(chosen) <= multiset(items)
  {
  }

  lemma HomesStep(chosen: seq<ScoredVideo>, x: ScoredVideo)
    ensures Homes(chosen + [x]) == Homes(chosen) + [x.home]
  {
  }

  /** The swap-remove of the source: overwrite with the last remaining item, then drop that one. */
  method MoveLast(remaining: array<ScoredVideo>, size: nat, best: nat)
    requires best < size <= remaining.Length
    modifies remaining
    ensures remaining[..size - 1] == SwapRemove(old(remaining[..size]), best)
    ensures multiset(remaining[..size - 1]) == old(multiset(remaining[..size])) - multiset{old(remaining[best])}
  {
    ghost var before := remaining[..size];
    remaining[best] := remaining[size - 1];
    SwapRemoveTakesOne(before, best);
    assert remaining[..size - 1] == SwapRemove(before, best);
  }

  lemma NothingChosen(items: seq<ScoredVideo>)
    ensures Ranked(items, items, map[], []) && Greedy(items, []) && Homes([]) == []
  {
  }

  /** How many videos the ranking should return. */
  function Goal(items: seq<ScoredVideo>, n: int): (goal: nat)
    ensures goal <= |items| && (0 < n ==> goal <= n) && (n <= 0 ==> goal == 0)
    ensures 0 < n ==> goal == n || goal == |items|
  {
    if n <= 0 then 0 else if n < |items| then n else |items|
  }

  /** A non-negative score always beats the floor, so the ranking does not stop while items are left. */
  lemma FloorIsNeverReached(items: seq<ScoredVideo>, chosen: seq<ScoredVideo>)
    requires multiset(chosen) <= multiset(items) && |chosen| < |items|
    requires forall x :: x in Left(items, chosen) ==> Effective(x, chosen) <= LOWEST_SCORE
    ensures exists i :: 0 <= i < |items| && items[i].score < 0.0
  {
    assert |Left(items, chosen)| == |items| - |chosen|;
    var x :| x in Left(items, chosen);
    assert x in multiset(items);
    InPrefix(items);
    assert Effective(x, chosen) <= LOWEST_SCORE;
  }

  lemma InPrefix(s: seq<ScoredVideo>)
    ensures forall x :: x in multiset(s) ==> exists i :: 0 <= i < |s| && s[i] == x
  {
  }

  /** Taking one available item moves it from the left items to the chosen ones. */
  lemma TakeOne(items: seq<ScoredVideo>, chosen: seq<ScoredVideo>, x: ScoredVideo)
    requires multiset(chosen) <= multiset(items) && x in Left(items, chosen)
    ensures multiset(chosen + [x]) <= multiset(items)
    ensures Left(items, chosen + [x]) == Left(items, chosen) - multiset{x}
  {
  }

  lemma PicksStep(chosen: seq<ScoredVideo>, x: ScoredVideo, c: string)
    ensures Picks(chosen + [x], c) == Picks(chosen, c) + if x.home.channelId == c then 1 else 0
  {
    assert (chosen + [x])[..|chosen|] == chosen;
  }

  /** One more best pick keeps the choice greedy. */
  lemma GreedyStep(items: seq<ScoredVideo>, chosen: seq<ScoredVideo>, remaining: seq<ScoredVideo>, best: nat)
    requires Greedy(items, chosen)
    requires multiset(remaining) == Left(items, chosen) && best < |remaining|
    requires forall i :: 0 <= i < |remaining| ==> Effective(remaining[i], chosen) <= Effective(remaining[best], chosen)
    ensures Greedy(items, chosen + [remaining[best]])
  {
    hide Effective, Left;
    var more := chosen + [remaining[best]];
    assert remaining[best] in multiset(remaining);
    forall k | 0 <= k < |more|
      ensures more[k] in Left(items, more[..k])
      ensures forall x :: x in Left(items, more[..k]) ==> Effective(x, more[..k]) <= Effective(more[k], more[..k])
    {
      if k < |chosen| {
        assert more[..k] == chosen[..k];
      } else {
        assert more[..k] == chosen;
        InPrefix(remaining);
      }
    }
  }

  // ---------------------------------------------------------------- what a greedy choice guarantees

  /** An item chosen later was available at every earlier pick. */
  lemma ChosenLaterWasLeft(items: seq<ScoredVideo>, chosen: seq<ScoredVideo>, i: nat, j: nat)
    requires multiset(chosen) <= multiset(items) && i <= j < |chosen|
    ensures chosen[j] in Left(items, chosen[..i])
  {
    assert chosen == chosen[..i] + chosen[i..];
    assert chosen[j] == chosen[i..][j - i];
    assert multiset(chosen)[chosen[j]] == multiset(chosen[..i])[chosen[j]] + multiset(chosen[i..])[chosen[j]];
    assert chosen[j] in chosen[i..];
  }

  lemma LeftOutWasLeft(items: seq<ScoredVideo>, chosen: seq<ScoredVideo>, x: ScoredVideo, i: nat)
    requires i <= |chosen| && x in Left(items, chosen)
    ensures x in Left(items, chosen[..i])
  {
    assert chosen == chosen[..i] + chosen[i..];
  }

  /** Inside one channel the scores of the picks never rise. */
  lemma ChannelScoresFall(items: seq<ScoredVideo>, chosen: seq<ScoredVideo>, i: nat, j: nat)
    requires Greedy(items, chosen) && multiset(chosen) <= multiset(items) && i <= j < |chosen|
    requires chosen[i].home.channelId == chosen[j].home.channelId
    ensures chosen[j].score <= chosen[i].score
  {
    ChosenLaterWasLeft(items, chosen, i, j);
    assert Effective(chosen[j], chosen[..i]) <= Effective(chosen[i], chosen[..i]);
  }

  /** No item that was left out beats a chosen one of its own channel. */
  lemma LeftOutLoses(items: seq<ScoredVideo>, chosen: seq<ScoredVideo>, x: ScoredVideo, i: nat)
    requires Greedy(items, chosen) && i < |chosen| && x in Left(items, chosen)
    requires x.home.channelId == chosen[i].home.channelId
    ensures x.score <= chosen[i].score
  {
    LeftOutWasLeft(items, chosen, x, i);
    assert Effective(x, chosen[..i]) <= Effective(chosen[i], chosen[..i]);
  }

  /** The price of diversity: at each pick every available item scores less than the pick plus the weight. */
  lemma DiversityPrice(items: seq<ScoredVideo>, chosen: seq<ScoredVideo>, x: ScoredVideo, i: nat)
    requires Greedy(items, chosen) && i < |chosen| && x in Left(items, chosen[..i])
    ensures x.score < chosen[i].score + DIVERSITY_WEIGHT
  {
    assert Effective(x, chosen[..i]) <= Effective(chosen[i], chosen[..i]);
  }

  /** How many of the first i picks are of one channel. */
  ghost function CountBefore(chosen: seq<ScoredVideo>, i: nat, channelId: string): nat
    requires i <= |chosen|
  {
    |set k | 0 <= k < i && chosen[k].home.channelId == channelId|
  }

  lemma {:induction false} PicksAre(chosen: seq<ScoredVideo>, i: nat, channelId: string)
    requires i <= |chosen|
    ensures Picks(chosen[..i], channelId) == CountBefore(chosen, i, channelId)
  {
    if i > 0 {
      PicksAre(chosen, i - 1, channelId);
      assert chosen[..i] == chosen[..i - 1] + [chosen[i - 1]];
      PicksStep(chosen[..i - 1], chosen[i - 1], channelId);
      var before := set k | 0 <= k < i - 1 && chosen[k].home.channelId == channelId;
      var all := set k | 0 <= k < i && chosen[k].home.channelId == channelId;
      assert all == if chosen[i - 1].home.channelId == channelId then before + {i - 1} else before;
    }
  }

  /**
  The exact price: no available item scores more than the pick when each gets 0.05 / (1 + picks) on top, counting the
  picks made before from its own channel.
  */
  lemma ExactPrice(items: seq<ScoredVideo>, chosen: seq<ScoredVideo>, x: ScoredVideo, i: nat)
    requires Greedy(items, chosen) && i < |chosen| && x in Left(items, chosen[..i])
    ensures var p := CountBefore(chosen, i, chosen[i].home.channelId);
            var q := CountBefore(chosen, i, x.home.channelId);
            x.score + 0.05 * (1.0 / (1 + q) as real) <= chosen[i].score + 0.05 * (1.0 / (1 + p) as real)
  {
    var p := CountBefore(chosen, i, chosen[i].home.channelId);
    var q := CountBefore(chosen, i, x.home.channelId);
    PassedOver(items, chosen, x, i);
    hide CountBefore, Greedy, Left;
  }

  lemma PassedOver(items: seq<ScoredVideo>, chosen: seq<ScoredVideo>, x: ScoredVideo, i: nat)
    requires Greedy(items, chosen) && i < |chosen| && x in Left(items, chosen[..i])
    ensures x.score + Bonus(CountBefore(chosen, i, x.home.channelId))
         <= chosen[i].score + Bonus(CountBefore(chosen, i, chosen[i].home.channelId))
  {
    PicksAre(chosen, i, chosen[i].home.channelId);
    PicksAre(chosen, i, x.home.channelId);
    hide Bonus, Picks, Left, CountBefore;
    assert Effective(x, chosen[..i]) <= Effective(chosen[i], chosen[..i]);
  }

  /** A channel with more picks yields to a fresh channel of equal score. */
  lemma FreshChannelWins(items: seq<ScoredVideo>, chosen: seq<ScoredVideo>, x: ScoredVideo, i: nat)
    requires Greedy(items, chosen) && i < |chosen| && x in Left(items, chosen[..i])
    requires chosen[i].score <= x.score
    ensures Picks(chosen[..i], chosen[i].home.channelId) <= Picks(chosen[..i], x.home.channelId)
  {
    var p, q := Picks(chosen[..i], chosen[i].home.channelId), Picks(chosen[..i], x.home.channelId);
    assert Effective(x, chosen[..i]) <= Effective(chosen[i], chosen[..i]);
    if q < p {
      BonusFalls(q, p);
    }
  }

  lemma BonusFalls(p: nat, q: nat)
    requires p < q
    ensures Bonus(q) < Bonus(p)
  {
    var a, b := (1 + p) as real, (1 + q) as real;
    assert 1.0 / a - 1.0 / b == (b - a) / (a * b);
    assert 0.0 < (b - a) / (a * b);
  }
}
