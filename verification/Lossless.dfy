// What the invariant of every interleaving means: nothing is lost, whatever passes
// do to each other, and no pass is ever stuck.
module Lossless {
  import opened Core
  import opened Dag
  import opened Window
  import opened Folds
  import opened Expand
  import opened Rebuild
  import opened Protocol

  // Every verbatim message beneath a window's items, in order.
  ghost function ExpandWindow(store: Store, w: seq<WindowItem>): seq<Message>
    requires StoreOk(store)
  {
    if w == [] then [] else ExpandWindow(store, w[..|w| - 1]) + ExpandItem(store, w[|w| - 1])
  }

  ghost function ExpandItem(store: Store, it: WindowItem): seq<Message>
    requires StoreOk(store)
  {
    match it.ref
    case MessageRef(id) =>
      var m := FindMessage(store.log, id);
      if m.Some? then [m.value] else []
    case SummaryRef(id) => if id in store.summaries then Expansion(store, id) else []
    case OtherRef(_, _) => []
  }

  lemma {:induction false} ExpandsToPrefix(store: Store, w: seq<WindowItem>)
    requires StoreOk(store) && WindowOk(store, w)
    ensures ExpandWindow(store, w) == store.log[..Horizon(w)]
    decreases |w|
  {
    if w != [] {
      var n := |w| - 1;
      PrefixOk(store, w);
      ExpandsToPrefix(store, w[..n]);
      ItemExpandsToSpan(store, w[n]);
      SpansAbut(store.log, 0, Horizon(w[..n]), Horizon(w));
    }
  }

  lemma PrefixOk(store: Store, w: seq<WindowItem>)
    requires WindowOk(store, w) && w != []
    ensures ItemOk(store, w[|w| - 1])
    ensures WindowOk(store, w[..|w| - 1]) && Horizon(w[..|w| - 1]) + 1 == w[|w| - 1].earliest <= Horizon(w)
  {
    var n := |w| - 1;
    assert ItemOk(store, w[n]);
    if n > 0 {
      assert w[n].earliest == w[n - 1].latest + 1;
    }
  }

  lemma ItemExpandsToSpan(store: Store, it: WindowItem)
    requires StoreOk(store) && ItemOk(store, it)
    ensures 1 <= it.earliest <= it.latest <= |store.log|
    ensures ExpandItem(store, it) == store.log[it.earliest - 1..it.latest]
  {
    match it.ref
    case MessageRef(id) => FoundMessage(store.log, it.earliest - 1);
    case SummaryRef(id) => ExpansionIsSpan(store, id);
  }

  lemma RebuiltExpandsToLog(store: Store)
    requires StoreOk(store) && ItemsOk(store)
    ensures
      var w := Extended(store, ItemsOf(store, store.items).value);
      Tiles(w) && ExpandWindow(store, w) == store.log
  {
    var w := Extended(store, ItemsOf(store, store.items).value);
    ExtendedOk(store, ItemsOf(store, store.items).value);
    ExpandsToPrefix(store, w);
    assert store.log[..|store.log|] == store.log;
  }

  // However passes, messages and deaths interleave, and whichever pass persisted
  // last: rebuilding the window from the persisted items finds every row, expands
  // to exactly the whole log in order, and every pass in flight covers a prefix of
  // the log in the same way.
  lemma Lossless(conversation: string, s: State)
    requires Reachable(conversation, s)
    ensures StoreOk(s.store)
    ensures ItemsOf(s.store, s.store.items).Some?
    ensures
      var w := Extended(s.store, ItemsOf(s.store, s.store.items).value);
      Tiles(w) && ExpandWindow(s.store, w) == s.store.log
    ensures forall pid | pid in s.passes ::
      var w := s.passes[pid].phase.w;
      && Tiles(w) && Horizon(w) <= |s.store.log|
      && ExpandWindow(s.store, w) == s.store.log[..Horizon(w)]
  {
    ReachableOk(conversation, s);
    RebuiltExpandsToLog(s.store);
    forall pid | pid in s.passes
      ensures ExpandWindow(s.store, s.passes[pid].phase.w) == s.store.log[..Horizon(s.passes[pid].phase.w)]
    {
      ExpandsToPrefix(s.store, s.passes[pid].phase.w);
    }
  }

  // Every summary ever stored, orphans included, recovers exactly its span.
  lemma EverySummaryRecovers(conversation: string, s: State, id: SummaryId)
    requires Reachable(conversation, s) && id in s.store.summaries
    ensures StoreOk(s.store) && SpanOk(s.store.log, s.store.summaries[id])
    ensures
      var row := s.store.summaries[id];
      && Expansion(s.store, id) == s.store.log[row.earliest - 1..row.latest]
      && |Expansion(s.store, id)| == row.descendants
  {
    ReachableOk(conversation, s);
    ExpansionIsSpan(s.store, id);
  }

  // Rows are never rewritten: what a summary recovered at one time it recovers for good.
  lemma RecoveryIsPermanent(s: State, actions: seq<Action>, t: State, id: SummaryId)
    requires StateOk(s) && Run(s, actions, t) && id in s.store.summaries
    ensures StoreOk(t.store) && id in t.store.summaries
    ensures Expansion(t.store, id) == Expansion(s.store, id)
  {
    RunKeepsOk(s, actions, t);
    ExpansionExtends(s.store, t.store, id);
  }

  // No pass ever gets stuck: whatever it is doing, it has a next step of its own.
  lemma PassCanProceed(s: State, pid: nat, content: string, tokens: nat)
    requires StateOk(s) && pid in s.passes
    ensures
      || Enabled(s, ReadLater(pid))
      || Enabled(s, Persist(pid))
      || (exists start, end :: Enabled(s, FoldLeaf(pid, start, end, content, tokens)))
      || (exists start :: Enabled(s, FoldCondensed(pid, start, content, tokens)))
  {
    hide StoreOk, WindowOk, ItemsOk, Foldable;
    var p := s.passes[pid];
    var w := p.phase.w;
    if p.phase.Folding? && WantsFold(p) {
      if !NoMessageBlock(w, p.cfg.freshTailMessages, p.cfg.freshTailTokens) {
        var start, end := SomeBlock(w, p.cfg.freshTailMessages, p.cfg.freshTailTokens, p.cfg.leafChunkTokens);
        assert Enabled(s, FoldLeaf(pid, start, end, content, tokens));
      } else if !NoCondenseRun(w, p.cfg.condenseFanout, p.cfg.maxDepth, p.cfg.condenseChunkTokens) {
        var start := SomeRun(w, p.cfg.condenseFanout, p.cfg.maxDepth, p.cfg.condenseChunkTokens, |w|);
        RunIsChain(s.store, w, start, start + p.cfg.condenseFanout);
        assert Enabled(s, FoldCondensed(pid, start, content, tokens));
      }
    }
  }

  lemma SomeBlock(w: seq<WindowItem>, freshTail: int, freshTokens: int, chunk: int) returns (start: nat, end: nat)
    requires !NoMessageBlock(w, freshTail, freshTokens)
    ensures IsMessageBlock(w, freshTail, freshTokens, chunk, start, end)
  {
    start := 0;
    while !Foldable(w, start, freshTail, freshTokens)
      invariant start < |w|
      invariant forall k: nat | k < start :: !Foldable(w, k, freshTail, freshTokens)
      decreases |w| - start
    {
      start := start + 1;
    }
    end := start + 1;
    while end < |w| && Foldable(w, end, freshTail, freshTokens) && SpanTokens(w, start, end) < chunk
      invariant start < end <= |w|
      invariant forall k: nat | start <= k < end :: Foldable(w, k, freshTail, freshTokens)
      invariant forall k: nat | start < k < end :: SpanTokens(w, start, k) < chunk
    {
      end := end + 1;
    }
  }

  lemma {:induction false} SomeRun(w: seq<WindowItem>, fanout: nat, maxDepth: int, chunk: int, n: nat)
    returns (start: nat)
    requires fanout >= 2
    requires exists k: nat :: k <= n && Condensable(w, k, fanout, maxDepth, chunk)
    ensures IsCondenseRun(w, fanout, maxDepth, chunk, start)
  {
    if k: nat :| k < n && Condensable(w, k, fanout, maxDepth, chunk) {
      start := SomeRun(w, fanout, maxDepth, chunk, n - 1);
    } else {
      start := n;
    }
  }
}
