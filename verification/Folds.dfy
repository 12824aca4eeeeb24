// One compaction step: turning a block of the window into a stored summary.
// Whatever text and size the summarizer returns, nothing the window covers is lost.
module Folds {
  import opened Core
  import opened Dag
  import opened Window

  predicate AllMessages(w: seq<WindowItem>, start: nat, end: nat)
    requires start <= end <= |w|
  {
    forall k | start <= k < end :: w[k].ref.MessageRef?
  }

  predicate AllSummaries(w: seq<WindowItem>, start: nat, end: nat)
    requires start <= end <= |w|
  {
    forall k | start <= k < end :: w[k].ref.SummaryRef?
  }

  function BlockMessages(w: seq<WindowItem>, start: nat, end: nat): (ids: seq<MessageId>)
    requires start <= end <= |w| && AllMessages(w, start, end)
    ensures |ids| == end - start && forall k | 0 <= k < |ids| :: ids[k] == w[start + k].ref.message
  {
    seq(end - start, k requires 0 <= k < end - start => w[start + k].ref.message)
  }

  function BlockSummaries(w: seq<WindowItem>, start: nat, end: nat): (ids: seq<SummaryId>)
    requires start <= end <= |w| && AllSummaries(w, start, end)
    ensures |ids| == end - start && forall k | 0 <= k < |ids| :: ids[k] == w[start + k].ref.summary
  {
    seq(end - start, k requires 0 <= k < end - start => w[start + k].ref.summary)
  }

  // ---- leaf ----

  function LeafStore(store: Store, w: seq<WindowItem>, start: nat, end: nat, content: string, tokens: nat): Store
    requires start < end <= |w| && AllMessages(w, start, end)
  {
    PutLeaf(store, BlockMessages(w, start, end), content, tokens, w[start].earliest, w[end - 1].latest, end - start)
  }

  // The window after the fold: the block gives way to the row stored under its ID.
  function LeafWindow(store: Store, w: seq<WindowItem>, start: nat, end: nat, content: string,
                      tokens: nat): seq<WindowItem>
    requires start < end <= |w| && AllMessages(w, start, end)
  {
    var t := LeafStore(store, w, start, end, content, tokens);
    ReplaceRange(w, start, end, SummaryItem(t.summaries[LeafId(store.conversation, BlockMessages(w, start, end))]))
  }

  // A block of raw messages is a run of the log.
  lemma BlockIsRun(store: Store, w: seq<WindowItem>, start: nat, end: nat)
    requires LogOk(store.log) && WindowOk(store, w) && start < end <= |w| && AllMessages(w, start, end)
    ensures 1 <= w[start].earliest <= w[end - 1].latest <= |store.log|
    ensures w[end - 1].latest - w[start].earliest + 1 == end - start
    ensures BlockMessages(w, start, end) == Ids(store.log[w[start].earliest - 1..w[end - 1].latest])
  {
    hide RowOk;
    assert ItemOk(store, w[start]) && ItemOk(store, w[end - 1]);
    var e := w[start].earliest;
    forall k | start <= k < end
      ensures w[k].earliest == w[k].latest == e + (k - start)
    {
      MessagesAreConsecutive(store, w, start, k);
    }
    var span := store.log[e - 1..w[end - 1].latest];
    forall k | 0 <= k < end - start
      ensures Ids(span)[k] == w[start + k].ref.message
    {
      assert ItemOk(store, w[start + k]);
      assert span[k] == store.log[e - 1 + k];
    }
  }

  lemma {:induction false} MessagesAreConsecutive(store: Store, w: seq<WindowItem>, start: nat, k: nat)
    requires LogOk(store.log) && WindowOk(store, w) && start <= k < |w| && AllMessages(w, start, k + 1)
    ensures w[k].earliest == w[k].latest == w[start].earliest + (k - start)
    decreases k
  {
    assert ItemOk(store, w[k]);
    if start < k {
      MessagesAreConsecutive(store, w, start, k - 1);
      assert w[k].earliest == w[k - 1].latest + 1;
    }
  }

  lemma LeafRowStored(store: Store, w: seq<WindowItem>, start: nat, end: nat, content: string, tokens: nat)
    requires StoreOk(store) && WindowOk(store, w) && start < end <= |w| && AllMessages(w, start, end)
    ensures
      var t := LeafStore(store, w, start, end, content, tokens);
      var id := LeafId(store.conversation, BlockMessages(w, start, end));
      && StoreOk(t) && Extends(store, t) && t.log == store.log && t.items == store.items
      && id in t.summaries && t.summaries[id].id == id
      && t.summaries[id].earliest == w[start].earliest && t.summaries[id].latest == w[end - 1].latest
  {
    BlockIsRun(store, w, start, end);
    PutLeafKeepsStore(store, content, tokens, w[start].earliest, w[end - 1].latest);
    assert RowOk(LeafStore(store, w, start, end, content, tokens),
                 LeafId(store.conversation, BlockMessages(w, start, end)));
  }

  lemma LeafFoldKeepsOk(store: Store, w: seq<WindowItem>, start: nat, end: nat, content: string, tokens: nat)
    requires StoreOk(store) && WindowOk(store, w) && start < end <= |w| && AllMessages(w, start, end)
    ensures
      var t := LeafStore(store, w, start, end, content, tokens);
      var u := LeafWindow(store, w, start, end, content, tokens);
      && StoreOk(t) && Extends(store, t) && t.log == store.log && t.items == store.items
      && WindowOk(t, u) && Horizon(u) == Horizon(w)
  {
    hide StoreOk, WindowOk, Extends, PutLeaf;
    LeafRowStored(store, w, start, end, content, tokens);
    ReplaceKeepsOk(store, LeafStore(store, w, start, end, content, tokens), w, start, end,
                   LeafId(store.conversation, BlockMessages(w, start, end)));
  }

  // ---- condensed ----

  function CondensedIdOf(store: Store, w: seq<WindowItem>, start: nat, end: nat): SummaryId
    requires start < end <= |w| && AllSummaries(w, start, end)
  {
    CondensedId(store.conversation, w[start].depth + 1, BlockSummaries(w, start, end))
  }

  function CondensedStore(store: Store, w: seq<WindowItem>, start: nat, end: nat, content: string, tokens: nat): Store
    requires start < end <= |w| && AllSummaries(w, start, end)
    requires forall c | c in BlockSummaries(w, start, end) :: c in store.summaries
  {
    PutCondensed(store, w[start].depth + 1, BlockSummaries(w, start, end), content, tokens,
                 w[start].earliest, w[end - 1].latest, SumDescendants(store.summaries, BlockSummaries(w, start, end)))
  }

  function CondensedWindow(store: Store, w: seq<WindowItem>, start: nat, end: nat, content: string,
                           tokens: nat): seq<WindowItem>
    requires start < end <= |w| && AllSummaries(w, start, end)
    requires forall c | c in BlockSummaries(w, start, end) :: c in store.summaries
  {
    var t := CondensedStore(store, w, start, end, content, tokens);
    ReplaceRange(w, start, end, SummaryItem(t.summaries[CondensedIdOf(store, w, start, end)]))
  }

  // A run of same-depth summaries is a chain of rows.
  lemma RunIsChain(store: Store, w: seq<WindowItem>, start: nat, end: nat)
    requires StoreOk(store) && WindowOk(store, w) && start < end <= |w| && AllSummaries(w, start, end)
    requires forall k | start <= k < end :: w[k].depth == w[start].depth
    ensures forall c | c in BlockSummaries(w, start, end) :: c in store.summaries
    ensures Chain(store.summaries, BlockSummaries(w, start, end), w[start].depth, w[start].earliest, w[end - 1].latest)
  {
    var ids := BlockSummaries(w, start, end);
    forall k | 0 <= k < |ids|
      ensures ids[k] in store.summaries && w[start + k] == SummaryItem(store.summaries[ids[k]])
    {
      assert ItemOk(store, w[start + k]);
    }
    forall k | 0 < k < |ids|
      ensures store.summaries[ids[k]].earliest == store.summaries[ids[k - 1]].latest + 1
    {
      assert w[start + k].earliest == w[start + k - 1].latest + 1;
    }
  }

  // The counts that go into the new row: the run's span and its descendants.
  lemma RunSpan(store: Store, w: seq<WindowItem>, start: nat, end: nat)
    requires StoreOk(store) && WindowOk(store, w) && start < end <= |w| && AllSummaries(w, start, end)
    requires forall k | start <= k < end :: w[k].depth == w[start].depth
    ensures forall c | c in BlockSummaries(w, start, end) :: c in store.summaries
    ensures 1 <= w[start].earliest <= w[end - 1].latest <= |store.log|
    ensures SumDescendants(store.summaries, BlockSummaries(w, start, end)) == w[end - 1].latest - w[start].earliest + 1
  {
    RunIsChain(store, w, start, end);
    ChainDescendants(store, BlockSummaries(w, start, end), w[start].depth, w[start].earliest, w[end - 1].latest);
    EarliestMonotone(w, 0, start);
    EarliestMonotone(w, end - 1, |w| - 1);
  }

  lemma CondensedRow(store: Store, depth: nat, ids: seq<SummaryId>, content: string, tokens: nat, e: nat, l: nat,
                     n: nat)
    requires StoreOk(store) && 1 <= e <= l <= |store.log| && n == l - e + 1
    requires Chain(store.summaries, ids, depth, e, l)
    ensures
      var t := PutCondensed(store, depth + 1, ids, content, tokens, e, l, n);
      var id := CondensedId(store.conversation, depth + 1, ids);
      && StoreOk(t) && Extends(store, t)
      && id in t.summaries && t.summaries[id].id == id
      && t.summaries[id].earliest == e && t.summaries[id].latest == l && t.summaries[id].depth == depth + 1
  {
    PutCondensedKeepsStore(store, depth + 1, ids, content, tokens, e, l);
    var t := PutCondensed(store, depth + 1, ids, content, tokens, e, l, n);
    assert RowOk(t, CondensedId(store.conversation, depth + 1, ids));
  }

  lemma CondensedFoldKeepsOk(store: Store, w: seq<WindowItem>, start: nat, end: nat, content: string, tokens: nat)
    requires StoreOk(store) && WindowOk(store, w) && start < end <= |w| && AllSummaries(w, start, end)
    requires forall k | start <= k < end :: w[k].depth == w[start].depth
    ensures forall c | c in BlockSummaries(w, start, end) :: c in store.summaries
    ensures
      var t := CondensedStore(store, w, start, end, content, tokens);
      var u := CondensedWindow(store, w, start, end, content, tokens);
      && StoreOk(t) && Extends(store, t) && t.log == store.log && t.items == store.items
      && WindowOk(t, u) && Horizon(u) == Horizon(w)
      && u[start].depth == w[start].depth + 1
  {
    hide WindowOk;
    RunSpan(store, w, start, end);
    RunIsChain(store, w, start, end);
    var ids := BlockSummaries(w, start, end);
    CondensedRow(store, w[start].depth, ids, content, tokens, w[start].earliest, w[end - 1].latest,
                 SumDescendants(store.summaries, ids));
    var t := CondensedStore(store, w, start, end, content, tokens);
    var id := CondensedIdOf(store, w, start, end);
    ReplaceKeepsOk(store, t, w, start, end, id);
  }

  lemma ReplaceKeepsOk(store: Store, t: Store, w: seq<WindowItem>, start: nat, end: nat, id: SummaryId)
    requires WindowOk(store, w) && Extends(store, t) && start < end <= |w|
    requires id in t.summaries && t.summaries[id].id == id
    requires t.summaries[id].earliest == w[start].earliest && t.summaries[id].latest == w[end - 1].latest
    ensures
      var u := ReplaceRange(w, start, end, SummaryItem(t.summaries[id]));
      WindowOk(t, u) && Horizon(u) == Horizon(w)
  {
    WindowOkExtends(store, t, w);
    FoldKeepsTiles(w, start, end, SummaryItem(t.summaries[id]));
  }
}
