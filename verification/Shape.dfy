// The order inside a compacted window. When a conversation has no tool messages
// and any fanout adjacent summaries of one depth fit the condensing cap, deeper
// summaries come first, raw messages last, and few summaries stay at each depth.
module Shape {
  import opened Core
  import opened Dag
  import opened Window
  import opened Folds
  import opened Rebuild
  import opened Protocol

  // Summaries before messages, and never a shallower summary before a deeper one.
  predicate Ordered(w: seq<WindowItem>) {
    forall i, j | 0 <= i < j < |w| && w[j].ref.SummaryRef? :: w[i].ref.SummaryRef? && w[i].depth >= w[j].depth
  }

  predicate NoToolItems(w: seq<WindowItem>) {
    forall k | 0 <= k < |w| :: w[k].role != Tool && !w[k].ref.OtherRef?
  }

  // `fanout` adjacent summaries of one depth from i on.
  predicate SameDepthRun(w: seq<WindowItem>, i: nat, fanout: nat) {
    && i + fanout <= |w|
    && forall k | i <= k < i + fanout :: w[k].ref.SummaryRef? && w[k].depth == w[i].depth
  }

  // Any such run fits the cap of one condensation.
  predicate RunsFit(w: seq<WindowItem>, fanout: nat, chunk: int) {
    forall i: nat | i <= |w| && SameDepthRun(w, i, fanout) :: SpanTokens(w, i, i + fanout) <= chunk
  }

  // ---- one fold ----

  // Without tool messages the protected items are a suffix, so the first block
  // starts at the first message.
  lemma BlockStartsAtFirstMessage(w: seq<WindowItem>, freshTail: int, freshTokens: int, start: nat, k: nat)
    requires NoToolItems(w) && start < |w| && k < start
    requires Foldable(w, start, freshTail, freshTokens)
    requires !Foldable(w, k, freshTail, freshTokens)
    ensures w[k].ref.SummaryRef?
  {
    if w[k].ref.MessageRef? {
      TailOpenMonotone(WindowEntries(w), k + 1, start + 1, freshTail, freshTokens);
    }
  }

  lemma LeafKeepsOrdered(w: seq<WindowItem>, freshTail: int, freshTokens: int, chunk: int, start: nat, end: nat,
                         item: WindowItem)
    requires Ordered(w) && NoToolItems(w)
    requires IsMessageBlock(w, freshTail, freshTokens, chunk, start, end)
    requires item.ref.SummaryRef? && item.depth == 0
    ensures Ordered(ReplaceRange(w, start, end, item))
  {
    assert Foldable(w, start, freshTail, freshTokens);
    forall k: nat | k < start
      ensures w[k].ref.SummaryRef?
    {
      BlockStartsAtFirstMessage(w, freshTail, freshTokens, start, k);
    }
    var u := ReplaceRange(w, start, end, item);
    forall j | start < j < |u|
      ensures !u[j].ref.SummaryRef?
    {
      assert u[j] == w[j - start - 1 + end];
    }
  }

  // Summaries within a fanout-th of the cap each always fit.
  lemma SmallSummariesFit(w: seq<WindowItem>, fanout: nat, chunk: int, size: nat)
    requires forall k | 0 <= k < |w| && w[k].ref.SummaryRef? :: w[k].tokens <= size
    requires size * fanout <= chunk
    ensures RunsFit(w, fanout, chunk)
  {
    forall i: nat | i <= |w| && SameDepthRun(w, i, fanout)
      ensures SpanTokens(w, i, i + fanout) <= chunk
    {
      SmallRunFits(w, i, i + fanout, size);
    }
  }

  lemma {:induction false} SmallRunFits(w: seq<WindowItem>, from: nat, end: nat, size: nat)
    requires from <= end <= |w|
    requires forall k | from <= k < end :: w[k].tokens <= size
    ensures SpanTokens(w, from, end) <= size * (end - from)
    decreases end
  {
    if from < end {
      SmallRunFits(w, from, end - 1, size);
      assert size * (end - from) == size * (end - 1 - from) + size;
    }
  }

  // A run that fits and is below the maximum depth can be condensed.
  lemma FittingRunFolds(w: seq<WindowItem>, fanout: nat, maxDepth: int, chunk: int, i: nat)
    requires RunsFit(w, fanout, chunk) && i <= |w| && SameDepthRun(w, i, fanout) && fanout >= 2
    ensures w[i].depth < maxDepth ==> Condensable(w, i, fanout, maxDepth, chunk)
  {
  }

  // A run one place earlier would have been taken first, so what precedes the run is deeper.
  lemma BeforeRunIsDeeper(w: seq<WindowItem>, fanout: nat, maxDepth: int, chunk: int, start: nat, i: nat)
    requires Ordered(w) && RunsFit(w, fanout, chunk) && fanout >= 2
    requires IsCondenseRun(w, fanout, maxDepth, chunk, start) && i < start
    ensures w[i].ref.SummaryRef? && w[i].depth > w[start].depth
  {
    var p := start - 1;
    if w[p].depth == w[start].depth {
      assert SameDepthRun(w, p, fanout);
      FittingRunFolds(w, fanout, maxDepth, chunk, p);
    }
  }

  lemma CondensedKeepsOrdered(w: seq<WindowItem>, fanout: nat, maxDepth: int, chunk: int, start: nat, item: WindowItem)
    requires Ordered(w) && RunsFit(w, fanout, chunk) && fanout >= 2
    requires IsCondenseRun(w, fanout, maxDepth, chunk, start)
    requires item.ref.SummaryRef? && item.depth == w[start].depth + 1
    ensures Ordered(ReplaceRange(w, start, start + fanout, item))
  {
    forall i: nat | i < start
      ensures w[i].ref.SummaryRef? && w[i].depth >= item.depth
    {
      BeforeRunIsDeeper(w, fanout, maxDepth, chunk, start, i);
    }
    OrderedAround(w, start, start + fanout, item);
  }

  // An item that is no deeper than what precedes it and no shallower than what follows.
  lemma OrderedAround(w: seq<WindowItem>, start: nat, end: nat, item: WindowItem)
    requires Ordered(w) && start < end <= |w| && w[start].ref.SummaryRef?
    requires item.ref.SummaryRef? && item.depth >= w[start].depth
    requires forall i: nat | i < start :: w[i].ref.SummaryRef? && w[i].depth >= item.depth
    ensures Ordered(ReplaceRange(w, start, end, item))
  {
    var u := ReplaceRange(w, start, end, item);
    forall i, j | 0 <= i < j < |u| && u[j].ref.SummaryRef?
      ensures u[i].ref.SummaryRef? && u[i].depth >= u[j].depth
    {
      if j > start {
        assert u[j] == w[j - start - 1 + end];
        if i > start {
          assert u[i] == w[i - start - 1 + end];
        } else if i == start {
          assert w[start].depth >= u[j].depth;
        }
      }
    }
  }

  // ---- when the folds run out ----

  function DepthCount(w: seq<WindowItem>, depth: nat, n: nat): nat
    requires n <= |w|
  {
    if n == 0 then 0
    else DepthCount(w, depth, n - 1) + (if w[n - 1].ref.SummaryRef? && w[n - 1].depth == depth then 1 else 0)
  }

  // A long enough run of one depth below the maximum can be condensed.
  lemma LongRunFolds(w: seq<WindowItem>, fanout: nat, maxDepth: int, chunk: int, depth: nat, i: nat, n: nat)
    requires RunsFit(w, fanout, chunk) && fanout >= 2 && depth < maxDepth
    requires i < n <= |w| && DepthRun(w, depth, i, n - 1)
    ensures n - i >= fanout ==> Condensable(w, i, fanout, maxDepth, chunk)
  {
    if n - i >= fanout {
      assert SameDepthRun(w, i, fanout);
      FittingRunFolds(w, fanout, maxDepth, chunk, i);
    }
  }

  // In an ordered window with no run left, fewer than `fanout` summaries share a depth below the maximum.
  lemma {:induction false} FewPerDepth(w: seq<WindowItem>, fanout: nat, maxDepth: int, chunk: int, depth: nat, n: nat)
    requires Ordered(w) && RunsFit(w, fanout, chunk) && fanout >= 2
    requires NoCondenseRun(w, fanout, maxDepth, chunk) && depth < maxDepth && n <= |w|
    ensures DepthCount(w, depth, n) <= fanout - 1
    ensures DepthCount(w, depth, n) > 0 ==>
      exists i, j | 0 <= i <= j < n :: DepthRun(w, depth, i, j) && j - i + 1 == DepthCount(w, depth, n)
    decreases n
  {
    if n > 0 {
      FewPerDepth(w, fanout, maxDepth, chunk, depth, n - 1);
      if w[n - 1].ref.SummaryRef? && w[n - 1].depth == depth {
        if DepthCount(w, depth, n - 1) == 0 {
          assert DepthRun(w, depth, n - 1, n - 1);
        } else {
          var i, j :| 0 <= i <= j < n - 1 && DepthRun(w, depth, i, j) && j - i + 1 == DepthCount(w, depth, n - 1);
          CountsAfterRun(w, depth, i, j, n - 1);
          LongRunFolds(w, fanout, maxDepth, chunk, depth, i, n);
        }
      } else if DepthCount(w, depth, n) > 0 {
        var i, j :| 0 <= i <= j < n - 1 && DepthRun(w, depth, i, j) && j - i + 1 == DepthCount(w, depth, n - 1);
        assert DepthRun(w, depth, i, j) && j < n;
      }
    }
  }

  predicate DepthRun(w: seq<WindowItem>, depth: nat, i: nat, j: nat)
    requires i <= j < |w|
  {
    forall k | i <= k <= j :: w[k].ref.SummaryRef? && w[k].depth == depth
  }

  // Equal depths are contiguous, so counting past a run without a gap finds no more.
  lemma {:induction false} CountsAfterRun(w: seq<WindowItem>, depth: nat, i: nat, j: nat, n: nat)
    requires Ordered(w) && i <= j < n < |w| && DepthRun(w, depth, i, j)
    requires w[n].ref.SummaryRef? && w[n].depth == depth
    ensures DepthRun(w, depth, i, n)
    ensures j - i + 1 == DepthCount(w, depth, n) ==> j == n - 1
  {
    forall k | i <= k <= n
      ensures w[k].ref.SummaryRef? && w[k].depth == depth
    {
      if j < k < n {
        assert w[j].depth >= w[k].depth >= w[n].depth;
      }
    }
    CountAtLeast(w, depth, i, n);
  }

  lemma {:induction false} CountAtLeast(w: seq<WindowItem>, depth: nat, i: nat, n: nat)
    requires i <= n <= |w|
    requires forall k | i <= k < n :: w[k].ref.SummaryRef? && w[k].depth == depth
    ensures DepthCount(w, depth, n) >= n - i
    decreases n
  {
    if i < n {
      CountAtLeast(w, depth, i, n - 1);
    }
  }

  // ---- every run ----

  predicate NoTools(log: seq<Message>) {
    forall i | 0 <= i < |log| :: log[i].role != Tool
  }

  // No message of the run is a tool's.
  predicate Toolless(a: Action) {
    a.Append? ==> a.message.role != Tool
  }

  // Every pass in flight can condense any run of its window.
  predicate PassesFit(s: State) {
    forall pid | pid in s.passes :: PassFits(s.passes[pid])
  }

  predicate PassFits(p: Pass) {
    p.cfg.condenseFanout >= 2 ==> RunsFit(p.phase.w, p.cfg.condenseFanout, p.cfg.condenseChunkTokens)
  }

  // A run without tool messages in whose every state the passes fit.
  ghost predicate Gentle(s: State, actions: seq<Action>)
    decreases |actions|
  {
    && PassesFit(s)
    && (actions != [] ==> Toolless(actions[0]) && Enabled(s, actions[0]) && Gentle(Do(s, actions[0]), actions[1..]))
  }

  ghost predicate ShapeOk(s: State) {
    match ItemsOf(s.store, s.store.items)
    case None => false
    case Some(w) =>
      && StateOk(s) && NoTools(s.store.log) && Ordered(w)
      && (forall pid | pid in s.passes :: Ordered(s.passes[pid].phase.w))
  }

  lemma WindowFacts(store: Store, w: seq<WindowItem>)
    requires WindowOk(store, w) && NoTools(store.log)
    ensures NoToolItems(w)
  {
    forall k | 0 <= k < |w|
      ensures w[k].role != Tool && !w[k].ref.OtherRef?
    {
      assert ItemOk(store, w[k]);
    }
  }

  lemma ExtendedOrdered(store: Store, w: seq<WindowItem>)
    requires LogOk(store.log) && WindowOk(store, w) && Ordered(w)
    ensures Ordered(Extended(store, w))
  {
    ExtendedIs(store, w);
  }

  lemma LeafStepOrdered(store: Store, p: Pass, start: nat, end: nat, content: string, tokens: nat)
    requires StoreOk(store) && WindowOk(store, p.phase.w) && NoTools(store.log)
    requires Ordered(p.phase.w) && LeafNext(p, start, end)
    ensures start < end <= |p.phase.w| && AllMessages(p.phase.w, start, end)
    ensures Ordered(LeafWindow(store, p.phase.w, start, end, content, tokens))
  {
    var w := p.phase.w;
    LeafBlockShape(p, start, end);
    WindowFacts(store, w);
    LeafItemDepth(store, w, start, end, content, tokens);
    LeafKeepsOrdered(w, p.cfg.freshTailMessages, p.cfg.freshTailTokens, p.cfg.leafChunkTokens, start, end,
                     LeafWindow(store, w, start, end, content, tokens)[start]);
  }

  lemma LeafItemDepth(store: Store, w: seq<WindowItem>, start: nat, end: nat, content: string, tokens: nat)
    requires StoreOk(store) && WindowOk(store, w) && start < end <= |w| && AllMessages(w, start, end)
    ensures
      var u := LeafWindow(store, w, start, end, content, tokens);
      u[start].ref.SummaryRef? && u[start].depth == 0
  {
    LeafFoldKeepsOk(store, w, start, end, content, tokens);
    var t := LeafStore(store, w, start, end, content, tokens);
    assert RowOk(t, LeafId(store.conversation, BlockMessages(w, start, end)));
  }

  lemma CondensedStepOrdered(store: Store, w: seq<WindowItem>, fanout: nat, maxDepth: int, chunk: int, start: nat,
                             content: string, tokens: nat)
    requires StoreOk(store) && WindowOk(store, w)
    requires Ordered(w) && fanout >= 2 && IsCondenseRun(w, fanout, maxDepth, chunk, start) && RunsFit(w, fanout, chunk)
    ensures AllSummaries(w, start, start + fanout)
    ensures forall c | c in BlockSummaries(w, start, start + fanout) :: c in store.summaries
    ensures Ordered(CondensedWindow(store, w, start, start + fanout, content, tokens))
  {
    CondensedItem(store, w, start, start + fanout, content, tokens);
    var u := CondensedWindow(store, w, start, start + fanout, content, tokens);
    CondensedKeepsOrdered(w, fanout, maxDepth, chunk, start, u[start]);
  }

  lemma CondensedItem(store: Store, w: seq<WindowItem>, start: nat, end: nat, content: string, tokens: nat)
    requires StoreOk(store) && WindowOk(store, w) && start < end <= |w| && AllSummaries(w, start, end)
    requires forall k | start <= k < end :: w[k].depth == w[start].depth
    ensures forall c | c in BlockSummaries(w, start, end) :: c in store.summaries
    ensures
      var u := CondensedWindow(store, w, start, end, content, tokens);
      u[start].ref.SummaryRef? && u[start].depth == w[start].depth + 1
  {
    CondensedFoldKeepsOk(store, w, start, end, content, tokens);
  }

  lemma StepKeepsShape(s: State, a: Action)
    requires ShapeOk(s) && PassesFit(s) && Enabled(s, a) && Toolless(a)
    ensures ShapeOk(Do(s, a))
  {
    hide ItemOk, Tiles, Ordered;
    StepKeepsOk(s, a);
    var t := Do(s, a);
    match a
    case Append(_) => ItemsOkExtends(s.store, t.store);
    case Begin(_, _, _) =>
    case ReadLater(pid) => ExtendedOrdered(s.store, s.passes[pid].phase.w);
    case FoldLeaf(_, _, _, _, _) => FoldKeepsShape(s, a);
    case FoldCondensed(_, _, _, _) => FoldKeepsShape(s, a);
    case Persist(pid) => PersistKeepsOk(s.store, s.passes[pid].phase.w);
    case Die(_) =>
  }

  lemma FoldOrdered(s: State, a: Action)
    requires ShapeOk(s) && IsFold(a) && Enabled(s, a) && PassFits(s.passes[a.pid])
    ensures Ordered(FoldWindow(s, a))
  {
    hide StoreOk, WindowOk, ItemsOk, LeafWindow, CondensedWindow, NoMessageBlock, Ordered, NoTools;
    var p := s.passes[a.pid];
    match a
    case FoldLeaf(_, start, end, content, tokens) => LeafStepOrdered(s.store, p, start, end, content, tokens);
    case FoldCondensed(_, start, content, tokens) => CondensedPassOrdered(s.store, p, start, content, tokens);
  }

  lemma FoldKeepsShape(s: State, a: Action)
    requires ShapeOk(s) && IsFold(a) && Enabled(s, a) && PassFits(s.passes[a.pid])
    ensures ShapeOk(AfterFold(s, a))
  {
    hide StoreOk, WindowOk, ItemsOk, FoldStore, FoldWindow, Ordered;
    FoldOk(s, a);
    FoldOrdered(s, a);
    FoldStepKeepsOk(s, a);
    ShapeAfterMove(s, FoldStore(s, a), a.pid, Folding(FoldWindow(s, a), s.passes[a.pid].phase.left - 1));
  }

  lemma ShapeAfterMove(s: State, t: Store, pid: nat, phase: Phase)
    requires ShapeOk(s) && pid in s.passes && StateOk(WithPhase(s.(store := t), pid, phase))
    requires Extends(s.store, t) && t.log == s.store.log && t.items == s.store.items && Ordered(phase.w)
    ensures ShapeOk(WithPhase(s.(store := t), pid, phase))
  {
    ItemsOkExtends(s.store, t);
  }

  lemma CondensedPassOrdered(store: Store, p: Pass, start: nat, content: string, tokens: nat)
    requires StoreOk(store) && WindowOk(store, p.phase.w) && Ordered(p.phase.w) && PassFits(p)
    requires CondensedNext(p, start) && RowsPresent(store, p, start)
    ensures Ordered(CondensedWindow(store, p.phase.w, start, start + p.cfg.condenseFanout, content, tokens))
  {
    CondensedStepOrdered(store, p.phase.w, p.cfg.condenseFanout, p.cfg.maxDepth, p.cfg.condenseChunkTokens, start,
                         content, tokens);
  }

  lemma {:induction false} RunKeepsShape(s: State, actions: seq<Action>, t: State)
    requires ShapeOk(s) && Run(s, actions, t) && Gentle(s, actions)
    ensures ShapeOk(t) && PassesFit(t)
    decreases |actions|
  {
    if actions != [] {
      StepKeepsShape(s, actions[0]);
      RunKeepsShape(Do(s, actions[0]), actions[1..], t);
    }
  }

  // In a run without tool messages whose passes can condense any `fanout` adjacent
  // summaries of one depth: every window is ordered, and a pass that ran out of
  // folds leaves fewer than `fanout` summaries at each depth below the maximum.
  lemma WindowsStayOrdered(conversation: string, actions: seq<Action>, s: State)
    requires Run(Initial(conversation), actions, s) && Gentle(Initial(conversation), actions)
    ensures StateOk(s)
    ensures Ordered(Extended(s.store, ItemsOf(s.store, s.store.items).value))
    ensures forall pid | pid in s.passes :: Ordered(s.passes[pid].phase.w)
    ensures forall pid, depth: nat | pid in s.passes && Stopped(s.passes[pid]) && WantsFold(s.passes[pid])
                                     && depth < s.passes[pid].cfg.maxDepth ::
      DepthCount(s.passes[pid].phase.w, depth, |s.passes[pid].phase.w|) <= s.passes[pid].cfg.condenseFanout - 1
  {
    InitialOk(conversation);
    RunKeepsShape(Initial(conversation), actions, s);
    ExtendedOrdered(s.store, ItemsOf(s.store, s.store.items).value);
    forall pid, depth: nat | pid in s.passes && Stopped(s.passes[pid]) && WantsFold(s.passes[pid])
                             && depth < s.passes[pid].cfg.maxDepth
      ensures DepthCount(s.passes[pid].phase.w, depth, |s.passes[pid].phase.w|) <= s.passes[pid].cfg.condenseFanout - 1
    {
      var p := s.passes[pid];
      FewPerDepth(p.phase.w, p.cfg.condenseFanout, p.cfg.maxDepth, p.cfg.condenseChunkTokens, depth, |p.phase.w|);
    }
  }
}
