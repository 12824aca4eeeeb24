// The window command's report: token subtotals, and which positions the shown items
// cover, miss, or cover twice. Gaps and overlaps are read off neighbours only; where the
// items advance they are exactly the positions that nothing shows and that two items
// show, and both are empty exactly when every position is shown once, in order.
module Coverage {
  import opened Core
  import opened Dag

  // One entry of an assembled window, as shown to a model.
  datatype RenderedItem = RenderedItem(
    ref: Ref,
    role: Role,
    content: string,
    tokens: nat,
    renderedTokens: nat,
    depth: nat,
    earliest: nat,
    latest: nat,
    represented: nat,
    isSummary: bool,
    hasOffload: bool)

  datatype Span = Span(start: int, end: int)

  // ---- gaps and overlaps ----

  predicate HasGap(previous: RenderedItem, current: RenderedItem) {
    current.earliest > previous.latest + 1
  }

  predicate HasOverlap(previous: RenderedItem, current: RenderedItem) {
    current.earliest <= previous.latest
  }

  // What the last two items leave out between them, and what they both show.
  function GapAt(items: seq<RenderedItem>): seq<Span>
    requires |items| >= 2
  {
    var previous, current := items[|items| - 2], items[|items| - 1];
    if HasGap(previous, current) then [Span(previous.latest + 1, current.earliest - 1)] else []
  }

  function OverlapAt(items: seq<RenderedItem>): seq<Span>
    requires |items| >= 2
  {
    var previous, current := items[|items| - 2], items[|items| - 1];
    if HasOverlap(previous, current) then [Span(current.earliest, Min(previous.latest, current.latest))] else []
  }

  function Gaps(items: seq<RenderedItem>): seq<Span> {
    if |items| < 2 then [] else Gaps(items[..|items| - 1]) + GapAt(items)
  }

  function Overlaps(items: seq<RenderedItem>): seq<Span> {
    if |items| < 2 then [] else Overlaps(items[..|items| - 1]) + OverlapAt(items)
  }

  // Every position the items show, in the order they show them.
  function Positions(items: seq<RenderedItem>): seq<int> {
    if items == [] then []
    else Positions(items[..|items| - 1]) + Interval(items[|items| - 1].earliest, items[|items| - 1].latest)
  }

  function Interval(first: int, last: int): seq<int>
    ensures |Interval(first, last)| == Max(last - first + 1, 0)
    ensures forall k | 0 <= k < |Interval(first, last)| :: Interval(first, last)[k] == first + k
  {
    seq(Max(last - first + 1, 0), k => first + k)
  }

  predicate WellFormed(items: seq<RenderedItem>) {
    forall i | 0 <= i < |items| :: items[i].earliest <= items[i].latest
  }

  method SequenceCoverage(items: seq<RenderedItem>) returns (complete: bool, gaps: seq<Span>, overlaps: seq<Span>)
    ensures gaps == Gaps(items) && overlaps == Overlaps(items)
    ensures complete <==> gaps == [] && overlaps == []
    ensures WellFormed(items) && items != [] ==>
      (complete <==> Positions(items) == Interval(items[0].earliest, items[|items| - 1].latest))
  {
    gaps, overlaps := [], [];
    var i := 1;
    while i < |items|
      invariant 1 <= i && (items != [] ==> i <= |items|)
      invariant gaps == Gaps(items[..Min(i, |items|)]) && overlaps == Overlaps(items[..Min(i, |items|)])
    {
      var previous, current := items[i - 1], items[i];
      assert items[..i + 1][..i] == items[..i];
      if current.earliest > previous.latest + 1 {
        gaps := gaps + [Span(previous.latest + 1, current.earliest - 1)];
      }
      if current.earliest <= previous.latest {
        overlaps := overlaps + [Span(current.earliest, Min(previous.latest, current.latest))];
      }
      i := i + 1;
    }
    assert items[..|items|] == items;
    complete := |gaps| == 0 && |overlaps| == 0;
    if WellFormed(items) && items != [] {
      CompleteIsPartition(items);
    }
  }

  predicate Abutting(items: seq<RenderedItem>) {
    forall i | 0 < i < |items| :: items[i].earliest == items[i - 1].latest + 1
  }

  lemma {:induction false} CompleteIsAbutting(items: seq<RenderedItem>)
    ensures Gaps(items) == [] && Overlaps(items) == [] <==> Abutting(items)
  {
    if |items| >= 2 {
      var n := |items| - 1;
      CompleteIsAbutting(items[..n]);
      if Abutting(items) {
        assert items[n].earliest == items[n - 1].latest + 1;
      }
      if Abutting(items[..n]) && items[n].earliest == items[n - 1].latest + 1 {
        forall i | 0 < i < |items|
          ensures items[i].earliest == items[i - 1].latest + 1
        {
          assert i < n ==> items[..n][i].earliest == items[..n][i - 1].latest + 1;
        }
      }
      if Abutting(items) {
        assert Abutting(items[..n]);
      }
    }
  }

  lemma {:induction false} AbuttingPositions(items: seq<RenderedItem>)
    requires WellFormed(items) && items != [] && Abutting(items)
    ensures items[0].earliest <= items[|items| - 1].latest
    ensures Positions(items) == Interval(items[0].earliest, items[|items| - 1].latest)
  {
    var n := |items| - 1;
    assert Interval(items[n].earliest, items[n].latest) != [];
    if n > 0 {
      AbuttingPositions(items[..n]);
      assert items[n].earliest == items[n - 1].latest + 1;
    } else {
      assert items[..0] == [];
    }
  }

  // Conversely, positions that count up by one leave no room between two items.
  lemma {:induction false} PositionsAbut(items: seq<RenderedItem>, first: int)
    requires WellFormed(items) && items != []
    requires forall k | 0 <= k < |Positions(items)| :: Positions(items)[k] == first + k
    ensures Abutting(items) && items[0].earliest == first && first + |Positions(items)| == items[|items| - 1].latest + 1
  {
    var n := |items| - 1;
    var before := Positions(items[..n]);
    var own := Interval(items[n].earliest, items[n].latest);
    assert Positions(items) == before + own;
    assert own[0] == Positions(items)[|before|] == first + |before|;
    if n > 0 {
      assert forall k | 0 <= k < |before| :: before[k] == Positions(items)[k];
      PositionsAbut(items[..n], first);
    } else {
      assert before == [];
    }
  }

  // The report calls a window complete exactly when its items, in order, show each
  // position from the first to the last once.
  lemma CompleteIsPartition(items: seq<RenderedItem>)
    requires WellFormed(items) && items != []
    ensures Gaps(items) == [] && Overlaps(items) == []
            <==> Positions(items) == Interval(items[0].earliest, items[|items| - 1].latest)
  {
    CompleteIsAbutting(items);
    if Abutting(items) {
      AbuttingPositions(items);
    }
    if Positions(items) == Interval(items[0].earliest, items[|items| - 1].latest) {
      PositionsAbut(items, items[0].earliest);
    }
  }

  // ---- which spans are reported ----

  // The positions from the end of an item's predecessor to its start.
  function Step(items: seq<RenderedItem>, i: nat): int
    requires 0 < i < |items|
  {
    items[i].earliest - items[i - 1].latest
  }

  // The positions between an item and its predecessor.
  predicate IsGapBefore(items: seq<RenderedItem>, i: nat, span: Span)
    requires 0 < i < |items|
  {
    span.start == items[i - 1].latest + 1 && span.end == items[i].earliest - 1
  }

  // From the start of an item to the first end of it and its predecessor.
  predicate IsOverlapBefore(items: seq<RenderedItem>, i: nat, span: Span)
    requires 0 < i < |items|
  {
    && span.start == items[i].earliest
    && span.end <= items[i - 1].latest && span.end <= items[i].latest
    && (span.end == items[i - 1].latest || span.end == items[i].latest)
  }

  predicate Rising(at: seq<nat>, n: nat) {
    && (forall k | 0 <= k < |at| :: 0 < at[k] < n)
    && (forall j, k | 0 <= j < k < |at| :: at[j] < at[k])
  }

  // A gap per item that starts beyond the position after its predecessor, in order.
  ghost predicate GapsListed(items: seq<RenderedItem>, gaps: seq<Span>, at: seq<nat>) {
    && |at| == |gaps| && Rising(at, |items|)
    && (forall i: nat | 0 < i < |items| :: i in at <==> Step(items, i) > 1)
    && (forall k | 0 <= k < |at| :: IsGapBefore(items, at[k], gaps[k]))
  }

  // An overlap per item that starts no later than its predecessor ends, in order.
  ghost predicate OverlapsListed(items: seq<RenderedItem>, overlaps: seq<Span>, at: seq<nat>) {
    && |at| == |overlaps| && Rising(at, |items|)
    && (forall i: nat | 0 < i < |items| :: i in at <==> Step(items, i) < 1)
    && (forall k | 0 <= k < |at| :: IsOverlapBefore(items, at[k], overlaps[k]))
  }

  lemma {:induction false} GapsAreListed(items: seq<RenderedItem>) returns (at: seq<nat>)
    ensures GapsListed(items, Gaps(items), at)
  {
    at := [];
    if |items| > 1 {
      at := GapsAreListed(items[..|items| - 1]);
      at := GapsOn(items, Gaps(items[..|items| - 1]), at);
    }
  }

  lemma RisingMore(at: seq<nat>, n: nat)
    requires 0 < n && Rising(at, n)
    ensures Rising(at, n + 1) && Rising(at + [n], n + 1)
  {
  }

  lemma LastPlace(items: seq<RenderedItem>)
    requires |items| > 1
    ensures |GapAt(items)| == (if Step(items, |items| - 1) > 1 then 1 else 0)
    ensures |OverlapAt(items)| == (if Step(items, |items| - 1) < 1 then 1 else 0)
    ensures GapAt(items) != [] ==> IsGapBefore(items, |items| - 1, GapAt(items)[0])
    ensures OverlapAt(items) != [] ==> IsOverlapBefore(items, |items| - 1, OverlapAt(items)[0])
  {
  }

  // What comes before the last item does not depend on it.
  lemma EarlierPlace(items: seq<RenderedItem>, n: nat, i: nat, span: Span)
    requires 0 < i < n <= |items|
    ensures Step(items[..n], i) == Step(items, i)
    ensures IsGapBefore(items[..n], i, span) <==> IsGapBefore(items, i, span)
    ensures IsOverlapBefore(items[..n], i, span) <==> IsOverlapBefore(items, i, span)
  {
  }

  lemma GapsOn(items: seq<RenderedItem>, gaps: seq<Span>, at: seq<nat>) returns (more: seq<nat>)
    requires |items| > 1 && GapsListed(items[..|items| - 1], gaps, at)
    ensures GapsListed(items, gaps + GapAt(items), more)
  {
    hide Step, GapAt, IsGapBefore;
    var n: nat := |items| - 1;
    LastPlace(items);
    RisingMore(at, n);
    more := if GapAt(items) == [] then at else at + [n];
    forall i: nat | 0 < i < |items|
      ensures i in more <==> Step(items, i) > 1
    {
      if i < n {
        EarlierPlace(items, n, i, Span(0, 0));
        assert i in more <==> i in at;
      }
    }
    forall k | 0 <= k < |more|
      ensures IsGapBefore(items, more[k], (gaps + GapAt(items))[k])
    {
      if k < |at| {
        EarlierPlace(items, n, at[k], gaps[k]);
      }
    }
  }

  lemma {:induction false} OverlapsAreListed(items: seq<RenderedItem>) returns (at: seq<nat>)
    ensures OverlapsListed(items, Overlaps(items), at)
  {
    at := [];
    if |items| > 1 {
      at := OverlapsAreListed(items[..|items| - 1]);
      at := OverlapsOn(items, Overlaps(items[..|items| - 1]), at);
    }
  }

  lemma OverlapsOn(items: seq<RenderedItem>, overlaps: seq<Span>, at: seq<nat>) returns (more: seq<nat>)
    requires |items| > 1 && OverlapsListed(items[..|items| - 1], overlaps, at)
    ensures OverlapsListed(items, overlaps + OverlapAt(items), more)
  {
    hide Step, OverlapAt, IsOverlapBefore;
    var n: nat := |items| - 1;
    LastPlace(items);
    RisingMore(at, n);
    more := if OverlapAt(items) == [] then at else at + [n];
    forall i: nat | 0 < i < |items|
      ensures i in more <==> Step(items, i) < 1
    {
      if i < n {
        EarlierPlace(items, n, i, Span(0, 0));
        assert i in more <==> i in at;
      }
    }
    forall k | 0 <= k < |more|
      ensures IsOverlapBefore(items, more[k], (overlaps + OverlapAt(items))[k])
    {
      if k < |at| {
        EarlierPlace(items, n, at[k], overlaps[k]);
      }
    }
  }

  // ---- what the reported spans mean ----

  // Neither end of the items ever moves back.
  predicate Advancing(items: seq<RenderedItem>) {
    forall i, j | 0 <= i < j < |items| :: items[i].earliest <= items[j].earliest && items[i].latest <= items[j].latest
  }

  predicate Shows(item: RenderedItem, p: int) {
    item.earliest <= p <= item.latest
  }

  predicate InSpans(spans: seq<Span>, p: int) {
    exists k | 0 <= k < |spans| :: spans[k].start <= p <= spans[k].end
  }

  lemma InSpansConcat(a: seq<Span>, b: seq<Span>, p: int)
    ensures InSpans(a + b, p) <==> InSpans(a, p) || InSpans(b, p)
  {
    if InSpans(a, p) {
      var k :| 0 <= k < |a| && a[k].start <= p <= a[k].end;
      assert (a + b)[k] == a[k];
    }
    if InSpans(b, p) {
      var k :| 0 <= k < |b| && b[k].start <= p <= b[k].end;
      assert (a + b)[|a| + k] == b[k];
    }
    if InSpans(a + b, p) {
      var k :| 0 <= k < |a + b| && (a + b)[k].start <= p <= (a + b)[k].end;
      assert k < |a| ==> a[k] == (a + b)[k];
      assert k >= |a| ==> b[k - |a|] == (a + b)[k];
    }
  }

  predicate Missed(items: seq<RenderedItem>, p: int) {
    forall i | 0 <= i < |items| :: !Shows(items[i], p)
  }

  predicate ShownTwice(items: seq<RenderedItem>, p: int) {
    exists i, j | 0 <= i < j < |items| :: Shows(items[i], p) && Shows(items[j], p)
  }

  lemma InOneSpan(spans: seq<Span>, p: int)
    requires |spans| <= 1
    ensures InSpans(spans, p) <==> spans != [] && spans[0].start <= p <= spans[0].end
  {
  }

  // The gaps are exactly the positions between the first and the last that no item shows.
  lemma {:induction false} GapsAreMissed(items: seq<RenderedItem>, p: int)
    requires WellFormed(items) && Advancing(items) && items != []
    ensures InSpans(Gaps(items), p) <==> items[0].earliest <= p <= items[|items| - 1].latest && Missed(items, p)
  {
    var n := |items| - 1;
    if n > 0 {
      GapsAreMissed(items[..n], p);
      InSpansConcat(Gaps(items[..n]), GapAt(items), p);
      InOneSpan(GapAt(items), p);
      MissedStep(items, p);
      MissedBetween(items, p);
    }
  }

  lemma MissedStep(items: seq<RenderedItem>, p: int)
    requires items != []
    ensures Missed(items, p) <==> Missed(items[..|items| - 1], p) && !Shows(items[|items| - 1], p)
  {
    var n := |items| - 1;
    assert forall i | 0 <= i < n :: items[..n][i] == items[i];
  }

  // Between the last two items there is nothing earlier either.
  lemma MissedBetween(items: seq<RenderedItem>, p: int)
    requires WellFormed(items) && Advancing(items) && |items| >= 2
    ensures items[0].earliest <= items[|items| - 2].earliest && items[|items| - 2].latest <= items[|items| - 1].latest
    ensures items[|items| - 2].latest < p ==> Missed(items[..|items| - 1], p)
  {
    var n := |items| - 1;
    assert items[0].earliest <= items[n - 1].earliest || n == 1;
    forall i | 0 <= i < n
      ensures items[i].latest <= items[n - 1].latest
    {
    }
  }

  // The overlaps are exactly the positions that two items show.
  lemma {:induction false} OverlapsAreShownTwice(items: seq<RenderedItem>, p: int)
    requires WellFormed(items) && Advancing(items)
    ensures InSpans(Overlaps(items), p) <==> ShownTwice(items, p)
  {
    if |items| >= 2 {
      var n := |items| - 1;
      OverlapsAreShownTwice(items[..n], p);
      InSpansConcat(Overlaps(items[..n]), OverlapAt(items), p);
      InOneSpan(OverlapAt(items), p);
      ShownTwiceStep(items, p);
    }
  }

  // A position shown by the last item and an earlier one is shown by the one before the last.
  lemma ShownTwiceStep(items: seq<RenderedItem>, p: int)
    requires WellFormed(items) && Advancing(items) && |items| >= 2
    ensures ShownTwice(items, p)
            <==> ShownTwice(items[..|items| - 1], p) || (Shows(items[|items| - 2], p) && Shows(items[|items| - 1], p))
  {
    var n := |items| - 1;
    var init := items[..n];
    if ShownTwice(init, p) {
      var i, j :| 0 <= i < j < n && Shows(init[i], p) && Shows(init[j], p);
      assert Shows(items[i], p) && Shows(items[j], p);
    }
    if ShownTwice(items, p) {
      var i, j :| 0 <= i < j < |items| && Shows(items[i], p) && Shows(items[j], p);
      if j < n {
        assert Shows(init[i], p) && Shows(init[j], p);
      } else {
        assert i == n - 1 || items[i].latest <= items[n - 1].latest;
        assert items[n - 1].earliest <= items[n].earliest;
      }
    }
  }

  // ---- subtotals ----

  ghost function SumValues<K(!new)>(m: map<K, nat>): nat {
    if m == map[] then 0
    else
      var k :| k in m;
      m[k] + SumValues(m - {k})
  }

  // The sum does not depend on the order the keys are taken in.
  lemma {:induction false} SumWithout<K(!new)>(m: map<K, nat>, k: K)
    requires k in m
    ensures SumValues(m) == m[k] + SumValues(m - {k})
    decreases |m|
  {
    var first :| first in m && SumValues(m) == m[first] + SumValues(m - {first});
    if first != k {
      SumWithout(m - {first}, k);
      SumWithout(m - {k}, first);
      assert m - {first} - {k} == m - {k} - {first};
    }
  }

  function Get<K>(m: map<K, nat>, k: K): nat {
    if k in m then m[k] else 0
  }

  lemma SumAdd<K(!new)>(m: map<K, nat>, k: K, v: nat)
    ensures SumValues(m[k := Get(m, k) + v]) == SumValues(m) + v
  {
    var n := m[k := Get(m, k) + v];
    SumWithout(n, k);
    if k in m {
      SumWithout(m, k);
      assert n - {k} == m - {k};
    } else {
      assert n - {k} == m;
    }
  }

  datatype Breakdown = Breakdown(
    storedTokens: nat,
    renderedTokens: nat,
    rawTokens: nat,
    summaryTokens: nat,
    roleTokens: map<Role, nat>,
    depthTokens: map<nat, nat>,
    represented: nat,
    complete: bool,
    gaps: seq<Span>,
    overlaps: seq<Span>,
    offloads: nat)

  function Total(items: seq<RenderedItem>, f: RenderedItem -> nat): nat {
    if items == [] then 0 else Total(items[..|items| - 1], f) + f(items[|items| - 1])
  }

  function OfRole(role: Role): RenderedItem -> nat {
    (it: RenderedItem) => if !it.isSummary && it.role == role then it.renderedTokens else 0
  }

  function OfDepth(depth: nat): RenderedItem -> nat {
    (it: RenderedItem) => if it.isSummary && it.depth == depth then it.renderedTokens else 0
  }

  function Stored(): RenderedItem -> nat {
    (it: RenderedItem) => it.tokens
  }

  function Rendered(): RenderedItem -> nat {
    (it: RenderedItem) => it.renderedTokens
  }

  function Represented(): RenderedItem -> nat {
    (it: RenderedItem) => it.represented
  }

  function Offloads(): RenderedItem -> nat {
    (it: RenderedItem) => if it.hasOffload then 1 else 0
  }

  // The report's running totals after some items.
  function Accumulated(items: seq<RenderedItem>): Breakdown {
    if items == [] then Breakdown(0, 0, 0, 0, map[], map[], 0, false, [], [], 0)
    else Added(Accumulated(items[..|items| - 1]), items[|items| - 1])
  }

  // One item more.
  function Added(b: Breakdown, it: RenderedItem): Breakdown {
    var c := b.(storedTokens := b.storedTokens + it.tokens, renderedTokens := b.renderedTokens + it.renderedTokens,
                represented := b.represented + it.represented,
                offloads := b.offloads + (if it.hasOffload then 1 else 0));
    if it.isSummary then
      c.(summaryTokens := b.summaryTokens + it.renderedTokens,
         depthTokens := b.depthTokens[it.depth := Get(b.depthTokens, it.depth) + it.renderedTokens])
    else
      c.(rawTokens := b.rawTokens + it.renderedTokens,
         roleTokens := b.roleTokens[it.role := Get(b.roleTokens, it.role) + it.renderedTokens])
  }

  method Accumulate(items: seq<RenderedItem>) returns (report: Breakdown)
    ensures report == Accumulated(items)
  {
    report := Breakdown(0, 0, 0, 0, map[], map[], 0, false, [], [], 0);
    for i := 0 to |items|
      invariant report == Accumulated(items[..i])
    {
      assert items[..i + 1][..i] == items[..i];
      report := Added(report, items[i]);
    }
    assert items[..|items|] == items;
  }

  method BuildWindowBreakdown(items: seq<RenderedItem>) returns (report: Breakdown)
    ensures report == Accumulated(items).(complete := report.complete, gaps := Gaps(items), overlaps := Overlaps(items))
    ensures report.complete <==> Gaps(items) == [] && Overlaps(items) == []
  {
    report := Accumulate(items);
    var complete, gaps, overlaps := SequenceCoverage(items);
    report := report.(complete := complete, gaps := gaps, overlaps := overlaps);
  }

  lemma {:induction false} TotalsAreTotals(items: seq<RenderedItem>)
    ensures
      var b := Accumulated(items);
      && b.storedTokens == Total(items, Stored()) && b.renderedTokens == Total(items, Rendered())
      && b.represented == Total(items, Represented()) && b.offloads == Total(items, Offloads())
  {
    if items != [] {
      TotalsAreTotals(items[..|items| - 1]);
    }
  }

  predicate AddsUp(b: Breakdown, roleSum: nat, depthSum: nat) {
    b.rawTokens + b.summaryTokens == b.renderedTokens && roleSum == b.rawTokens && depthSum == b.summaryTokens
  }

  lemma AddedAddsUp(b: Breakdown, it: RenderedItem)
    requires AddsUp(b, SumValues(b.roleTokens), SumValues(b.depthTokens))
    ensures AddsUp(Added(b, it), SumValues(Added(b, it).roleTokens), SumValues(Added(b, it).depthTokens))
  {
    SumAdd(b.depthTokens, it.depth, it.renderedTokens);
    SumAdd(b.roleTokens, it.role, it.renderedTokens);
  }

  // Raw and summary tokens make up the rendered total, the role map adds up to the
  // raw tokens and the depth map to the summary tokens.
  lemma {:induction false} SubtotalsAddUp(items: seq<RenderedItem>)
    ensures
      var b := Accumulated(items);
      AddsUp(b, SumValues(b.roleTokens), SumValues(b.depthTokens))
  {
    if items != [] {
      SubtotalsAddUp(items[..|items| - 1]);
      AddedAddsUp(Accumulated(items[..|items| - 1]), items[|items| - 1]);
    }
  }

  // Each entry of a map is the total of its own items.
  lemma {:induction false} EntriesAreTotals(items: seq<RenderedItem>, role: Role, depth: nat)
    ensures Get(Accumulated(items).roleTokens, role) == Total(items, OfRole(role))
    ensures Get(Accumulated(items).depthTokens, depth) == Total(items, OfDepth(depth))
  {
    if items != [] {
      EntriesAreTotals(items[..|items| - 1], role, depth);
    }
  }
}
