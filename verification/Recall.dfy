// Automatic recall: a greedy choice of search hits under a total quota and a
// quota on summaries, and why no other choice does better.
module Recall {
  import opened Core

  const MAX_RECALL_ITEMS := 10
  const MAX_SUMMARY_RESULTS := 2

  datatype Kind = MessageHit | SummaryHit

  // A search hit; what the score is computed from is in `features`.
  datatype Hit<+F> = Hit(kind: Kind, id: string, sourceRank: nat, features: F)

  predicate WithinQuota(kind: Kind, messages: nat, summaries: nat, limit: int) {
    if kind.SummaryHit? then summaries < Min(MAX_SUMMARY_RESULTS, limit)
    else messages < Min(limit, MAX_RECALL_ITEMS)
  }

  // The number of turns of the selection loop.
  function Turns(n: nat, limit: int): int {
    Min(Min(limit, n), MAX_RECALL_ITEMS)
  }

  predicate InRange(n: nat, chosen: seq<nat>) {
    forall t | 0 <= t < |chosen| :: chosen[t] < n
  }

  function Count(kinds: seq<Kind>, chosen: seq<nat>, kind: Kind): nat
    requires InRange(|kinds|, chosen)
  {
    if chosen == [] then 0
    else Count(kinds, chosen[..|chosen| - 1], kind) + (if kinds[chosen[|chosen| - 1]] == kind then 1 else 0)
  }

  predicate Indices(n: nat, chosen: seq<nat>) {
    && InRange(n, chosen)
    && (forall s, t | 0 <= s < t < |chosen| :: chosen[s] != chosen[t])
  }

  predicate Eligible(kinds: seq<Kind>, limit: int, chosen: seq<nat>, i: nat)
    requires Indices(|kinds|, chosen)
  {
    && i < |kinds| && i !in chosen
    && WithinQuota(kinds[i], Count(kinds, chosen, MessageHit), Count(kinds, chosen, SummaryHit), limit)
  }

  // A higher score first, and among equals the earlier hit.
  predicate Before(scores: seq<int>, i: nat, j: nat)
    requires i < |scores| && j < |scores|
  {
    scores[i] > scores[j] || (scores[i] == scores[j] && i < j)
  }

  ghost predicate Best(kinds: seq<Kind>, scores: seq<int>, limit: int, chosen: seq<nat>, i: nat)
    requires |scores| == |kinds| && Indices(|kinds|, chosen)
  {
    && Eligible(kinds, limit, chosen, i)
    && forall j: nat | j != i && Eligible(kinds, limit, chosen, j) :: Before(scores, i, j)
  }

  // Each pick is the best of what its predecessors left.
  ghost predicate PicksBest(kinds: seq<Kind>, scores: seq<int>, limit: int, picks: seq<nat>)
    requires |scores| == |kinds|
    ensures PicksBest(kinds, scores, limit, picks) ==> Indices(|kinds|, picks)
  {
    picks == [] ||
    var before, last := picks[..|picks| - 1], picks[|picks| - 1];
    assert picks == before + [last];
    PicksBest(kinds, scores, limit, before) && Best(kinds, scores, limit, before, last)
  }

  // The picks end only at the total quota or when nothing more is allowed.
  ghost predicate IsGreedy(kinds: seq<Kind>, scores: seq<int>, limit: int, picks: seq<nat>)
    requires |scores| == |kinds|
  {
    && PicksBest(kinds, scores, limit, picks)
    && |picks| <= Max(Turns(|kinds|, limit), 0)
    && (|picks| < Turns(|kinds|, limit) ==> forall i: nat :: !Eligible(kinds, limit, picks, i))
  }

  lemma PickMore(kinds: seq<Kind>, scores: seq<int>, limit: int, picks: seq<nat>, best: nat)
    requires |scores| == |kinds| && PicksBest(kinds, scores, limit, picks) && Best(kinds, scores, limit, picks, best)
    ensures PicksBest(kinds, scores, limit, picks + [best])
    ensures Count(kinds, picks + [best], MessageHit)
            == Count(kinds, picks, MessageHit) + (if kinds[best].MessageHit? then 1 else 0)
    ensures Count(kinds, picks + [best], SummaryHit)
            == Count(kinds, picks, SummaryHit) + (if kinds[best].SummaryHit? then 1 else 0)
  {
    assert (picks + [best])[..|picks|] == picks;
  }

  // The t-th pick was the best one open to its predecessors.
  lemma {:induction false} PickWasBest(kinds: seq<Kind>, scores: seq<int>, limit: int, picks: seq<nat>, t: nat)
    requires |scores| == |kinds| && PicksBest(kinds, scores, limit, picks) && t < |picks|
    ensures PicksBest(kinds, scores, limit, picks[..t]) && Best(kinds, scores, limit, picks[..t], picks[t])
    decreases |picks|
  {
    var before := picks[..|picks| - 1];
    if t < |before| {
      PickWasBest(kinds, scores, limit, before, t);
      assert before[..t] == picks[..t];
    }
  }

  // A row of the message search.
  datatype Found<+F> = Found(id: string, features: F)

  // The found messages outside the current tail, in order, each with its search rank.
  method MessageRecallHits<F>(hits: seq<Found<F>>, excluded: set<string>) returns (out: seq<Hit<F>>)
    ensures forall t | 0 <= t < |out| ::
      && out[t].sourceRank < |hits|
      && out[t] == Hit(MessageHit, hits[out[t].sourceRank].id, out[t].sourceRank, hits[out[t].sourceRank].features)
      && out[t].id !in excluded
    ensures forall s, t | 0 <= s < t < |out| :: out[s].sourceRank < out[t].sourceRank
    ensures forall r | 0 <= r < |hits| && hits[r].id !in excluded ::
      exists t :: 0 <= t < |out| && out[t].sourceRank == r
  {
    out := [];
    for rank := 0 to |hits|
      invariant forall t | 0 <= t < |out| ::
        && out[t].sourceRank < rank
        && out[t] == Hit(MessageHit, hits[out[t].sourceRank].id, out[t].sourceRank, hits[out[t].sourceRank].features)
        && out[t].id !in excluded
      invariant forall s, t | 0 <= s < t < |out| :: out[s].sourceRank < out[t].sourceRank
      invariant forall r | 0 <= r < rank && hits[r].id !in excluded ::
        exists t :: 0 <= t < |out| && out[t].sourceRank == r
    {
      if hits[rank].id in excluded {
        continue;
      }
      ghost var before := out;
      out := out + [Hit(MessageHit, hits[rank].id, rank, hits[rank].features)];
      assert out[|before|].sourceRank == rank;
      forall r | 0 <= r < rank && hits[r].id !in excluded
        ensures exists t :: 0 <= t < |out| && out[t].sourceRank == r
      {
        var t :| 0 <= t < |before| && before[t].sourceRank == r;
        assert out[t].sourceRank == r;
      }
    }
  }

  method BestRecallIndex(kinds: seq<Kind>, scores: seq<int>, selected: set<nat>, messages: nat, summaries: nat,
                         limit: int, ghost chosen: seq<nat>)
    returns (best: int)
    requires |scores| == |kinds| && Indices(|kinds|, chosen)
    requires Tallied(kinds, chosen, selected, messages, summaries)
    ensures best < 0 ==> forall i: nat :: !Eligible(kinds, limit, chosen, i)
    ensures best >= 0 ==> Best(kinds, scores, limit, chosen, best)
    ensures best >= 0 ==> forall i: nat | i != best && Eligible(kinds, limit, chosen, i) ::
      scores[i] < scores[best] || (scores[i] == scores[best] && best < i)
  {
    best := -1;
    for i := 0 to |scores|
      invariant best < i
      invariant best < 0 ==> forall j: nat | j < i :: !Eligible(kinds, limit, chosen, j)
      invariant best >= 0 ==>
        && Eligible(kinds, limit, chosen, best)
        && forall j: nat | j < i && j != best && Eligible(kinds, limit, chosen, j) :: Before(scores, best, j)
    {
      if i in selected || !WithinQuota(kinds[i], messages, summaries, limit)
         || (best >= 0 && scores[i] <= scores[best]) {
        continue;
      }
      best := i;
    }
  }

  method RankRecall<F>(hits: seq<Hit<F>>, score: Hit<F> -> int, limit: int)
    returns (out: seq<Hit<F>>, ghost picks: seq<nat>)
    ensures IsGreedy(Kinds(hits), Scores(hits, score), limit, picks)
    ensures |out| == |picks| && forall t | 0 <= t < |out| :: out[t] == hits[picks[t]]
    ensures limit <= 0 ==> out == []
    ensures |out| <= Max(0, Min(limit, 10))
  {
    out, picks := [], [];
    if limit <= 0 || |hits| == 0 {
      return;
    }
    var scores := Scores(hits, score);
    var kinds := Kinds(hits);
    var selected: set<nat> := {};
    var messages: nat, summaries: nat := 0, 0;
    var turns := Turns(|hits|, limit);
    for turn := 0 to turns
      invariant |picks| == turn == |out| && PicksBest(kinds, scores, limit, picks)
      invariant Tallied(kinds, picks, selected, messages, summaries)
      invariant forall t | 0 <= t < |out| :: out[t] == hits[picks[t]]
    {
      var best := BestRecallIndex(kinds, scores, selected, messages, summaries, limit, picks);
      if best < 0 {
        return;
      }
      PickMore(kinds, scores, limit, picks, best);
      TallyMore(kinds, picks, selected, messages, summaries, best);
      var pick: nat := best;
      selected := selected + {pick};
      out := out + [hits[pick]];
      picks := picks + [pick];
      if kinds[pick].SummaryHit? {
        summaries := summaries + 1;
      } else {
        messages := messages + 1;
      }
    }
  }

  // The loop's counters say what has been picked.
  ghost predicate Tallied(kinds: seq<Kind>, picks: seq<nat>, selected: set<nat>, messages: nat, summaries: nat) {
    && InRange(|kinds|, picks) && selected == Members(picks)
    && messages == Count(kinds, picks, MessageHit) && summaries == Count(kinds, picks, SummaryHit)
  }

  lemma TallyMore(kinds: seq<Kind>, picks: seq<nat>, selected: set<nat>, messages: nat, summaries: nat, pick: nat)
    requires Tallied(kinds, picks, selected, messages, summaries) && pick < |kinds|
    ensures
      var summary := kinds[pick].SummaryHit?;
      Tallied(kinds, picks + [pick], selected + {pick},
              if summary then messages else messages + 1, if summary then summaries + 1 else summaries)
  {
    var now := picks + [pick];
    assert now[..|picks|] == picks;
    forall i
      ensures i in Members(now) <==> i in selected + {pick}
    {
      assert i in now <==> i in picks || i == pick;
    }
  }

  function Kinds<F>(hits: seq<Hit<F>>): (kinds: seq<Kind>)
    ensures |kinds| == |hits| && forall i | 0 <= i < |hits| :: kinds[i] == hits[i].kind
  {
    seq(|hits|, i requires 0 <= i < |hits| => hits[i].kind)
  }

  function Scores<F>(hits: seq<Hit<F>>, score: Hit<F> -> int): (scores: seq<int>)
    ensures |scores| == |hits| && forall i | 0 <= i < |hits| :: scores[i] == score(hits[i])
  {
    seq(|hits|, i requires 0 <= i < |hits| => score(hits[i]))
  }

  // ---- the stable order ----

  // All hits by descending score, equals in their given order.
  predicate IsStableOrder(scores: seq<int>, order: seq<nat>) {
    && InRange(|scores|, order)
    && (forall i: nat | i < |scores| :: i in order)
    && (forall s, t | 0 <= s < t < |order| ::
          scores[order[s]] > scores[order[t]] || (scores[order[s]] == scores[order[t]] && order[s] < order[t]))
  }

  // Walking an order once, keeping each hit that the quotas still allow.
  function Kept(kinds: seq<Kind>, limit: int, order: seq<nat>): (kept: seq<nat>)
    requires InRange(|kinds|, order)
    ensures InRange(|kinds|, kept)
    ensures forall t | 0 <= t < |kept| :: kept[t] in order
  {
    if order == [] then []
    else
      var kept := Kept(kinds, limit, order[..|order| - 1]);
      var i := order[|order| - 1];
      if |kept| < Turns(|kinds|, limit)
         && WithinQuota(kinds[i], Count(kinds, kept, MessageHit), Count(kinds, kept, SummaryHit), limit)
      then kept + [i]
      else kept
  }

  lemma BestFirst(kinds: seq<Kind>, scores: seq<int>, limit: int, chosen: seq<nat>, i: nat, j: nat)
    requires |scores| == |kinds| && Indices(|kinds|, chosen)
    requires Best(kinds, scores, limit, chosen, i) && Eligible(kinds, limit, chosen, j) && i != j
    ensures Before(scores, i, j)
  {
  }

  // More picks never make a hit eligible again.
  lemma {:induction false} CountGrows(kinds: seq<Kind>, a: seq<nat>, b: seq<nat>, kind: Kind)
    requires InRange(|kinds|, a) && InRange(|kinds|, b)
    ensures Count(kinds, a, kind) <= Count(kinds, a + b, kind)
    decreases |b|
  {
    if b == [] {
      assert a + b == a;
    } else {
      assert (a + b)[..|a + b| - 1] == a + b[..|b| - 1];
      CountGrows(kinds, a, b[..|b| - 1], kind);
    }
  }

  predicate PassedOver(kinds: seq<Kind>, limit: int, order: seq<nat>, picks: seq<nat>)
    requires Indices(|kinds|, picks)
  {
    forall i | i in order && i !in picks :: !Eligible(kinds, limit, picks, i)
  }

  // After part of the walk: some of the picks, and nothing open left behind.
  predicate WalkOk(kinds: seq<Kind>, limit: int, walked: seq<nat>, picks: seq<nat>, kept: seq<nat>) {
    kept <= picks && (kept != picks ==> Indices(|kinds|, kept) && PassedOver(kinds, limit, walked, kept))
  }

  lemma KeptStep(kinds: seq<Kind>, limit: int, order: seq<nat>, m: nat)
    requires InRange(|kinds|, order) && 0 < m <= |order|
    ensures InRange(|kinds|, order[..m]) && InRange(|kinds|, order[..m - 1])
    ensures
      var kept := Kept(kinds, limit, order[..m - 1]);
      Kept(kinds, limit, order[..m])
      == if |kept| < Turns(|kinds|, limit)
            && WithinQuota(kinds[order[m - 1]], Count(kinds, kept, MessageHit), Count(kinds, kept, SummaryHit), limit)
         then kept + [order[m - 1]] else kept
  {
    assert order[..m][..m - 1] == order[..m - 1];
  }

  lemma {:induction false} KeptIsPrefix(kinds: seq<Kind>, scores: seq<int>, limit: int, order: seq<nat>,
                                        picks: seq<nat>, m: nat)
    requires |scores| == |kinds| && IsStableOrder(scores, order) && IsGreedy(kinds, scores, limit, picks)
    requires m <= |order|
    ensures WalkOk(kinds, limit, order[..m], picks, Kept(kinds, limit, order[..m]))
    decreases m
  {
    hide PicksBest, Eligible, WithinQuota, Count;
    if m > 0 {
      KeptIsPrefix(kinds, scores, limit, order, picks, m - 1);
      KeptStep(kinds, limit, order, m);
      NextKept(kinds, scores, limit, order, picks, m, Kept(kinds, limit, order[..m - 1]));
    }
  }

  // The walk meets the next pick before any other hit that is still open.
  lemma NextKept(kinds: seq<Kind>, scores: seq<int>, limit: int, order: seq<nat>, picks: seq<nat>, m: nat,
                 kept: seq<nat>)
    requires |scores| == |kinds| && IsStableOrder(scores, order) && IsGreedy(kinds, scores, limit, picks)
    requires 0 < m <= |order|
    requires kept == Kept(kinds, limit, order[..m - 1]) && WalkOk(kinds, limit, order[..m - 1], picks, kept)
    ensures
      var take := |kept| < Turns(|kinds|, limit)
        && WithinQuota(kinds[order[m - 1]], Count(kinds, kept, MessageHit), Count(kinds, kept, SummaryHit), limit);
      WalkOk(kinds, limit, order[..m], picks, if take then kept + [order[m - 1]] else kept)
  {
    NewInWalk(scores, order, m);
    assert forall t | 0 <= t < |kept| :: kept[t] in order[..m - 1];
    if kept == picks {
      assert |picks| < Turns(|kinds|, limit) ==> !Eligible(kinds, limit, picks, order[m - 1]);
    } else if Eligible(kinds, limit, kept, order[m - 1]) {
      TakeNext(kinds, scores, limit, order, picks, m, kept);
    } else {
      SkippedOver(kinds, limit, order, m, kept);
    }
  }

  lemma TakeNext(kinds: seq<Kind>, scores: seq<int>, limit: int, order: seq<nat>, picks: seq<nat>, m: nat,
                 kept: seq<nat>)
    requires |scores| == |kinds| && IsStableOrder(scores, order) && IsGreedy(kinds, scores, limit, picks)
    requires 0 < m <= |order|
    requires kept < picks && Indices(|kinds|, kept) && PassedOver(kinds, limit, order[..m - 1], kept)
    requires Eligible(kinds, limit, kept, order[m - 1])
    ensures |kept| < Turns(|kinds|, limit)
    ensures WalkOk(kinds, limit, order[..m], picks, kept + [order[m - 1]])
  {
    NextIsPick(kinds, scores, limit, order, picks, m, kept);
    assert kept + [order[m - 1]] == picks[..|kept| + 1];
    StillPassedOver(kinds, limit, order, m, kept);
  }

  lemma SkippedOver(kinds: seq<Kind>, limit: int, order: seq<nat>, m: nat, kept: seq<nat>)
    requires 0 < m <= |order| && Indices(|kinds|, kept)
    requires PassedOver(kinds, limit, order[..m - 1], kept) && !Eligible(kinds, limit, kept, order[m - 1])
    ensures PassedOver(kinds, limit, order[..m], kept)
  {
    forall j | j in order[..m] && j !in kept
      ensures !Eligible(kinds, limit, kept, j)
    {
      assert j in order[..m - 1] || j == order[m - 1];
    }
  }

  lemma NewInWalk(scores: seq<int>, order: seq<nat>, m: nat)
    requires IsStableOrder(scores, order) && 0 < m <= |order|
    ensures order[m - 1] !in order[..m - 1]
  {
    forall s | 0 <= s < m - 1
      ensures order[s] != order[m - 1]
    {
      assert Before(scores, order[s], order[m - 1]);
    }
  }

  lemma NextIsPick(kinds: seq<Kind>, scores: seq<int>, limit: int, order: seq<nat>, picks: seq<nat>, m: nat,
                   kept: seq<nat>)
    requires |scores| == |kinds| && IsStableOrder(scores, order) && IsGreedy(kinds, scores, limit, picks)
    requires 0 < m <= |order|
    requires kept < picks && Indices(|kinds|, kept) && PassedOver(kinds, limit, order[..m - 1], kept)
    requires Eligible(kinds, limit, kept, order[m - 1])
    ensures order[m - 1] == picks[|kept|]
  {
    var pick, i := picks[|kept|], order[m - 1];
    assert kept == picks[..|kept|];
    PickWasBest(kinds, scores, limit, picks, |kept|);
    assert pick in order;
    if pick != i {
      BestFirst(kinds, scores, limit, kept, pick, i);
      forall s | 0 <= s < |order|
        ensures order[s] != pick
      {
        if s < m - 1 {
          assert order[..m - 1][s] == order[s];
        } else if s > m - 1 {
          assert Before(scores, i, order[s]);
        }
      }
    }
  }

  lemma StillPassedOver(kinds: seq<Kind>, limit: int, order: seq<nat>, m: nat, kept: seq<nat>)
    requires 0 < m <= |order| && Indices(|kinds|, kept) && Indices(|kinds|, kept + [order[m - 1]])
    requires PassedOver(kinds, limit, order[..m - 1], kept)
    ensures PassedOver(kinds, limit, order[..m], kept + [order[m - 1]])
  {
    var i := order[m - 1];
    assert (kept + [i])[|kept|] == i;
    CountGrows(kinds, kept, [i], MessageHit);
    CountGrows(kinds, kept, [i], SummaryHit);
    forall j | j in order[..m] && j !in kept + [i]
      ensures !Eligible(kinds, limit, kept + [i], j)
    {
      assert j in order[..m - 1];
    }
  }

  lemma OpenToTheEnd(kinds: seq<Kind>, scores: seq<int>, limit: int, order: seq<nat>, picks: seq<nat>, kept: seq<nat>)
    requires |scores| == |kinds| && IsStableOrder(scores, order) && IsGreedy(kinds, scores, limit, picks)
    requires kept < picks
    ensures Indices(|kinds|, kept) && !PassedOver(kinds, limit, order, kept)
  {
    assert kept == picks[..|kept|];
    PickWasBest(kinds, scores, limit, picks, |kept|);
    assert picks[|kept|] in order;
  }

  // The selection loop and one walk over the hits sorted by score choose the same
  // hits in the same order.
  lemma GreedyIsStableOrder(kinds: seq<Kind>, scores: seq<int>, limit: int, order: seq<nat>, picks: seq<nat>)
    requires |scores| == |kinds| && IsStableOrder(scores, order) && IsGreedy(kinds, scores, limit, picks)
    ensures picks == Kept(kinds, limit, order)
  {
    KeptIsPrefix(kinds, scores, limit, order, picks, |order|);
    assert order[..|order|] == order;
    var kept := Kept(kinds, limit, order);
    if kept != picks {
      OpenToTheEnd(kinds, scores, limit, order, picks, kept);
      assert false;
    }
  }

  // ---- no choice does better ----

  function OfKind(kinds: seq<Kind>, chosen: set<nat>, kind: Kind): set<nat> {
    set i | i in chosen && i < |kinds| && kinds[i] == kind
  }

  predicate Allowed(kinds: seq<Kind>, limit: int, chosen: set<nat>) {
    && (forall i | i in chosen :: i < |kinds|)
    && |chosen| <= Min(limit, MAX_RECALL_ITEMS)
    && |OfKind(kinds, chosen, SummaryHit)| <= Min(MAX_SUMMARY_RESULTS, limit)
  }

  ghost function Sum(scores: seq<int>, chosen: set<nat>): int
    requires forall i | i in chosen :: i < |scores|
  {
    if chosen == {} then 0
    else
      var i :| i in chosen;
      scores[i] + Sum(scores, chosen - {i})
  }

  lemma {:induction false} SumWithout(scores: seq<int>, chosen: set<nat>, i: nat)
    requires (forall j | j in chosen :: j < |scores|) && i in chosen
    ensures Sum(scores, chosen) == scores[i] + Sum(scores, chosen - {i})
    decreases |chosen|
  {
    var first :| first in chosen && Sum(scores, chosen) == scores[first] + Sum(scores, chosen - {first});
    if first != i {
      SumWithout(scores, chosen - {first}, i);
      SumWithout(scores, chosen - {i}, first);
      assert chosen - {first} - {i} == chosen - {i} - {first};
    }
  }

  function Members(chosen: seq<nat>): set<nat> {
    set i | i in chosen
  }

  lemma {:induction false} CountsAreSizes(kinds: seq<Kind>, chosen: seq<nat>, kind: Kind)
    requires Indices(|kinds|, chosen)
    ensures |Members(chosen)| == |chosen|
    ensures Count(kinds, chosen, kind) == |OfKind(kinds, Members(chosen), kind)|
  {
    if chosen != [] {
      var init, last := chosen[..|chosen| - 1], chosen[|chosen| - 1];
      CountsAreSizes(kinds, init, kind);
      MembersStep(chosen);
      OfKindStep(kinds, Members(init), last, kind);
    }
  }

  lemma MembersStep(chosen: seq<nat>)
    requires chosen != [] && forall s, t | 0 <= s < t < |chosen| :: chosen[s] != chosen[t]
    ensures Members(chosen) == Members(chosen[..|chosen| - 1]) + {chosen[|chosen| - 1]}
    ensures chosen[|chosen| - 1] !in Members(chosen[..|chosen| - 1])
  {
    var init, last := chosen[..|chosen| - 1], chosen[|chosen| - 1];
    assert chosen == init + [last];
  }

  lemma OfKindStep(kinds: seq<Kind>, chosen: set<nat>, i: nat, kind: Kind)
    requires i < |kinds| && i !in chosen
    ensures |OfKind(kinds, chosen + {i}, kind)| == |OfKind(kinds, chosen, kind)| + (if kinds[i] == kind then 1 else 0)
  {
    assert OfKind(kinds, chosen + {i}, kind) == OfKind(kinds, chosen, kind) + (if kinds[i] == kind then {i} else {});
  }

  lemma SubsetSize(a: set<nat>, b: set<nat>)
    requires a <= b
    ensures |a| <= |b|
    ensures |a| == |b| ==> a == b
  {
    assert b == a + (b - a);
  }

  lemma {:induction false} KindsPartition(kinds: seq<Kind>, chosen: set<nat>)
    requires forall i | i in chosen :: i < |kinds|
    ensures |chosen| == |OfKind(kinds, chosen, MessageHit)| + |OfKind(kinds, chosen, SummaryHit)|
  {
    assert chosen == OfKind(kinds, chosen, MessageHit) + OfKind(kinds, chosen, SummaryHit);
    assert OfKind(kinds, chosen, MessageHit) * OfKind(kinds, chosen, SummaryHit) == {};
  }

  // A hit outside the first picks that some allowed set has besides them was open to
  // the next pick, so it scores no more.
  lemma NoBetterLeft(kinds: seq<Kind>, scores: seq<int>, limit: int, picks: seq<nat>, t: nat, chosen: set<nat>, y: nat)
    requires |scores| == |kinds| && IsGreedy(kinds, scores, limit, picks) && t < |picks|
    requires Allowed(kinds, limit, chosen) && Members(picks[..t]) <= chosen && y in chosen && y !in picks[..t]
    ensures scores[y] <= scores[picks[t]]
  {
    var before := picks[..t];
    CountsAreSizes(kinds, before, MessageHit);
    CountsAreSizes(kinds, before, SummaryHit);
    SubsetSize(OfKind(kinds, Members(before), SummaryHit) + (if kinds[y].SummaryHit? then {y} else {}),
               OfKind(kinds, chosen, SummaryHit));
    KindsPartition(kinds, Members(before));
    assert Eligible(kinds, limit, before, y);
    PickWasBest(kinds, scores, limit, picks, t);
  }

  // One exchange: an allowed set that holds the first t picks can be made to hold
  // the next one too without losing size or score.
  lemma Exchange(kinds: seq<Kind>, scores: seq<int>, limit: int, picks: seq<nat>, t: nat, chosen: set<nat>)
    returns (better: set<nat>)
    requires |scores| == |kinds| && IsGreedy(kinds, scores, limit, picks) && t < |picks|
    requires Allowed(kinds, limit, chosen) && |chosen| == |picks| && Members(picks[..t]) <= chosen
    ensures Allowed(kinds, limit, better) && |better| == |picks| && Members(picks[..t + 1]) <= better
    ensures Sum(scores, chosen) <= Sum(scores, better)
  {
    var before, x := picks[..t], picks[t];
    assert picks[..t + 1] == before + [x];
    if x in chosen {
      better := chosen;
    } else {
      var y := Victim(kinds, limit, picks, t, chosen);
      NoBetterLeft(kinds, scores, limit, picks, t, chosen, y);
      better := chosen - {y} + {x};
      SumWithout(scores, chosen, y);
      SumWithout(scores, better, x);
      assert better - {x} == chosen - {y};
      CountsAreSizes(kinds, before, SummaryHit);
      PickWasBest(kinds, scores, limit, picks, t);
      SwapAllowed(kinds, limit, chosen, Members(before), x, y);
    }
  }

  // What to give up for the next pick: another summary if there is one to give.
  lemma Victim(kinds: seq<Kind>, limit: int, picks: seq<nat>, t: nat, chosen: set<nat>) returns (y: nat)
    requires Indices(|kinds|, picks) && t < |picks|
    requires Allowed(kinds, limit, chosen) && |chosen| == |picks| && Members(picks[..t]) <= chosen
    ensures y in chosen && y !in picks[..t]
    ensures kinds[y].SummaryHit? || OfKind(kinds, chosen, SummaryHit) <= Members(picks[..t])
  {
    CountsAreSizes(kinds, picks[..t], SummaryHit);
    if z :| z in chosen && z !in picks[..t] && kinds[z].SummaryHit? {
      y := z;
    } else {
      if chosen <= Members(picks[..t]) {
        SubsetSize(chosen, Members(picks[..t]));
      }
      y :| y in chosen && y !in picks[..t];
    }
  }

  lemma SwapKinds(kinds: seq<Kind>, chosen: set<nat>, x: nat, y: nat)
    requires x < |kinds| && x !in chosen && y in chosen && y < |kinds|
    ensures |chosen - {y} + {x}| == |chosen|
    ensures
      var was, after := OfKind(kinds, chosen, SummaryHit), OfKind(kinds, chosen - {y} + {x}, SummaryHit);
      && |after| <= |was| + (if kinds[x].SummaryHit? then 1 else 0)
      && (kinds[y].SummaryHit? ==> |after| <= |was|)
  {
    var was, after := OfKind(kinds, chosen, SummaryHit), OfKind(kinds, chosen - {y} + {x}, SummaryHit);
    assert after == was - {y} + (if kinds[x].SummaryHit? then {x} else {});
    assert kinds[y].SummaryHit? ==> y in was;
  }

  lemma SwapAllowed(kinds: seq<Kind>, limit: int, chosen: set<nat>, before: set<nat>, x: nat, y: nat)
    requires Allowed(kinds, limit, chosen) && before <= chosen && x < |kinds| && x !in chosen && y in chosen
    requires y !in before
    requires kinds[y].SummaryHit? || OfKind(kinds, chosen, SummaryHit) <= before
    requires kinds[x].SummaryHit? ==> |OfKind(kinds, before, SummaryHit)| < Min(MAX_SUMMARY_RESULTS, limit)
    ensures Allowed(kinds, limit, chosen - {y} + {x}) && |chosen - {y} + {x}| == |chosen|
  {
    SwapKinds(kinds, chosen, x, y);
    if !kinds[y].SummaryHit? {
      assert OfKind(kinds, chosen, SummaryHit) == OfKind(kinds, before, SummaryHit);
    }
  }

  lemma {:induction false} ExchangeAll(kinds: seq<Kind>, scores: seq<int>, limit: int, picks: seq<nat>, t: nat,
                                       chosen: set<nat>)
    requires |scores| == |kinds| && IsGreedy(kinds, scores, limit, picks) && t <= |picks|
    requires Allowed(kinds, limit, chosen) && |chosen| == |picks| && Members(picks[..t]) <= chosen
    ensures Sum(scores, chosen) <= Sum(scores, Members(picks))
    decreases |picks| - t
  {
    if t == |picks| {
      assert picks[..t] == picks;
      CountsAreSizes(kinds, picks, SummaryHit);
      SubsetSize(Members(picks), chosen);
    } else {
      var better := Exchange(kinds, scores, limit, picks, t, chosen);
      ExchangeAll(kinds, scores, limit, picks, t + 1, better);
    }
  }

  lemma PicksAllowed(kinds: seq<Kind>, scores: seq<int>, limit: int, picks: seq<nat>)
    requires |scores| == |kinds| && IsGreedy(kinds, scores, limit, picks) && limit >= 0
    ensures Allowed(kinds, limit, Members(picks)) && |Members(picks)| == |picks|
  {
    CountsAreSizes(kinds, picks, SummaryHit);
    SummariesWithin(kinds, scores, limit, picks, |picks|);
    assert picks[..|picks|] == picks;
  }

  lemma {:induction false} SummariesWithin(kinds: seq<Kind>, scores: seq<int>, limit: int, picks: seq<nat>, t: nat)
    requires |scores| == |kinds| && IsGreedy(kinds, scores, limit, picks) && limit >= 0 && t <= |picks|
    ensures Count(kinds, picks[..t], SummaryHit) <= Min(MAX_SUMMARY_RESULTS, limit)
    decreases t
  {
    if t > 0 {
      SummariesWithin(kinds, scores, limit, picks, t - 1);
      assert picks[..t][..t - 1] == picks[..t - 1];
      PickWasBest(kinds, scores, limit, picks, t - 1);
    }
  }

  lemma LargestSize(kinds: seq<Kind>, scores: seq<int>, limit: int, picks: seq<nat>, chosen: set<nat>)
    requires |scores| == |kinds| && IsGreedy(kinds, scores, limit, picks) && Allowed(kinds, limit, chosen)
    ensures |chosen| <= |picks|
  {
    if |picks| < Turns(|kinds|, limit) {
      var mine := Members(picks);
      CountsAreSizes(kinds, picks, MessageHit);
      CountsAreSizes(kinds, picks, SummaryHit);
      KindsPartition(kinds, mine);
      KindsPartition(kinds, chosen);
      forall i | i in chosen && kinds[i].MessageHit?
        ensures i in mine
      {
        assert !Eligible(kinds, limit, picks, i);
      }
      SubsetSize(OfKind(kinds, chosen, MessageHit), OfKind(kinds, mine, MessageHit));
      if |OfKind(kinds, mine, SummaryHit)| < Min(MAX_SUMMARY_RESULTS, limit) {
        forall i | i in chosen && kinds[i].SummaryHit?
          ensures i in mine
        {
          assert !Eligible(kinds, limit, picks, i);
        }
        SubsetSize(OfKind(kinds, chosen, SummaryHit), OfKind(kinds, mine, SummaryHit));
      }
    } else {
      SubsetSize(chosen, Below(|kinds|));
    }
  }

  function Below(n: nat): (below: set<nat>)
    ensures |below| == n && forall i: nat :: i in below <==> i < n
  {
    if n == 0 then {} else Below(n - 1) + {n - 1}
  }

  // The picks are allowed; every allowed selection is at most as large, and one of
  // the same size scores at most as much.
  lemma GreedyIsOptimal(kinds: seq<Kind>, scores: seq<int>, limit: int, picks: seq<nat>, chosen: set<nat>)
    requires |scores| == |kinds| && IsGreedy(kinds, scores, limit, picks) && limit >= 0
    requires Allowed(kinds, limit, chosen)
    ensures Allowed(kinds, limit, Members(picks)) && |Members(picks)| == |picks|
    ensures |chosen| <= |picks|
    ensures |chosen| == |picks| ==> Sum(scores, chosen) <= Sum(scores, Members(picks))
  {
    PicksAllowed(kinds, scores, limit, picks);
    LargestSize(kinds, scores, limit, picks, chosen);
    if |chosen| == |picks| {
      ExchangeAll(kinds, scores, limit, picks, 0, chosen);
    }
  }
}
