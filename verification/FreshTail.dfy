// The protected fresh tail, computed twice: by the engine over a compacted window, from
// its newest item back, and by automatic recall over the full log, from its newest
// message back. Both skip tool results and stop once a message floor and a token floor
// are met, so while the tail is raw in the window both name the same messages.
module FreshTail {
  import opened Core
  import opened Dag
  import opened Window

  function LogEntries(log: seq<Message>): (es: seq<Entry>)
    ensures |es| == |log| && forall i | 0 <= i < |es| :: es[i] == Entry(log[i].role != Tool, log[i].tokenCount)
  {
    seq(|log|, i requires 0 <= i < |log| => Entry(log[i].role != Tool, log[i].tokenCount))
  }

  // The entries of the messages a window covers.
  function Seen(store: Store, w: seq<WindowItem>): (es: seq<Entry>)
    requires Horizon(w) <= |store.log|
    ensures |es| == Horizon(w)
  {
    LogEntries(store.log[..Horizon(w)])
  }

  predicate HoldsRaw(w: seq<WindowItem>, from: nat, m: Message) {
    exists p | from <= p < |w| :: w[p] == MessageItem(m)
  }

  // Every message in the log's fresh tail is still raw in the window.
  predicate RawTail(store: Store, w: seq<WindowItem>, freshTail: int, freshTokens: int)
    requires Horizon(w) <= |store.log|
  {
    forall i | 0 <= i < Horizon(w) && InTail(Seen(store, w), i, freshTail, freshTokens) :: HoldsRaw(w, 0, store.log[i])
  }

  // ---- counting over a window against counting over the log ----

  lemma {:induction false} SkipTools(es: seq<Entry>, i: nat, j: nat)
    requires i <= j <= |es|
    requires forall k | i <= k < j :: !es[k].conversational
    ensures CountFrom(es, i) == CountFrom(es, j) && TokensFrom(es, i) == TokensFrom(es, j)
    decreases j - i
  {
    if i < j {
      SkipTools(es, i + 1, j);
    }
  }

  // A window never counts more than the log does from the same place.
  lemma {:induction false} WindowCountsAtMost(store: Store, w: seq<WindowItem>, k: nat)
    requires WindowOk(store, w) && k <= |w|
    ensures Covered(w, k) <= Horizon(w)
    ensures CountFrom(WindowEntries(w), k) <= CountFrom(Seen(store, w), Covered(w, k))
    ensures TokensFrom(WindowEntries(w), k) <= TokensFrom(Seen(store, w), Covered(w, k))
    decreases |w| - k
  {
    hide ItemOk, TailOpen;
    if k < |w| {
      WindowCountsAtMost(store, w, k + 1);
      ItemEntry(store, w, k);
      OneMessageAtLeast(Seen(store, w), w[k].earliest, w[k].latest, w[k].ref.MessageRef?);
    }
  }

  lemma OneMessageAtLeast(es: seq<Entry>, e: nat, l: nat, raw: bool)
    requires 0 < e <= l <= |es| && (raw ==> e == l)
    ensures
      var own := raw && es[l - 1].conversational;
      && CountFrom(es, e - 1) >= CountFrom(es, l) + (if own then 1 else 0)
      && TokensFrom(es, e - 1) >= TokensFrom(es, l) + (if own then es[l - 1].tokens else 0)
  {
    TailOpenMonotone(es, e - 1, l, 0, 0);
  }

  // How many messages the items before k cover.
  function Covered(w: seq<WindowItem>, k: nat): nat
    requires Tiles(w) && k <= |w|
  {
    if k == 0 then 0 else w[k - 1].latest
  }

  // If every conversational message from j on is raw at position k or later, the
  // window counts at least as much from k as the log does from j.
  lemma {:induction false} WindowCountsAtLeast(store: Store, w: seq<WindowItem>, k: nat, j: nat)
    requires LogOk(store.log) && WindowOk(store, w) && k <= |w| && j <= Horizon(w)
    requires forall i | j <= i < Horizon(w) && Seen(store, w)[i].conversational :: HoldsRaw(w, k, store.log[i])
    ensures CountFrom(WindowEntries(w), k) >= CountFrom(Seen(store, w), j)
    ensures TokensFrom(WindowEntries(w), k) >= TokensFrom(Seen(store, w), j)
    decreases |w| - k
  {
    var es := Seen(store, w);
    if k == |w| {
      SkipTools(es, j, |es|);
    } else {
      var l := w[k].latest;
      ItemEntry(store, w, k);
      RawBeyond(store, w, k, j);
      OneMessageAtMost(es, j, l, w[k].ref.MessageRef?);
      WindowCountsAtLeast(store, w, k + 1, Max(j, l));
    }
  }

  // An item and the log agree on what the tail rule sees.
  lemma ItemEntry(store: Store, w: seq<WindowItem>, k: nat)
    requires WindowOk(store, w) && k < |w|
    ensures 0 < w[k].earliest <= w[k].latest <= Horizon(w)
    ensures w[k].ref.MessageRef? ==>
      w[k].earliest == w[k].latest && WindowEntries(w)[k] == Seen(store, w)[w[k].latest - 1]
    ensures !w[k].ref.MessageRef? ==> !WindowEntries(w)[k].conversational
  {
    assert ItemOk(store, w[k]);
    EarliestMonotone(w, 0, k);
    EarliestMonotone(w, k, |w| - 1);
  }

  // Passing an item that covers up to l skips at most its own message.
  lemma OneMessageAtMost(es: seq<Entry>, j: nat, l: nat, raw: bool)
    requires 0 < l <= |es| && j <= |es|
    requires forall i | j <= i < (if raw then l - 1 else l) :: !es[i].conversational
    ensures
      var own := raw && es[l - 1].conversational;
      && CountFrom(es, j) <= CountFrom(es, Max(j, l)) + (if own then 1 else 0)
      && TokensFrom(es, j) <= TokensFrom(es, Max(j, l)) + (if own then es[l - 1].tokens else 0)
  {
    if j < l {
      SkipTools(es, j, if raw then l - 1 else l);
    }
  }

  // A message held raw from k on is either item k itself or lies beyond it.
  lemma RawFrom(store: Store, w: seq<WindowItem>, k: nat, i: nat)
    requires LogOk(store.log) && WindowOk(store, w) && k < |w| && i < |store.log|
    requires HoldsRaw(w, k, store.log[i])
    ensures i < w[k].latest ==> w[k].latest == i + 1 && w[k].ref.MessageRef?
    ensures i >= w[k].latest ==> HoldsRaw(w, k + 1, store.log[i])
  {
    var p :| k <= p < |w| && w[p] == MessageItem(store.log[i]);
    EarliestMonotone(w, k, p);
  }

  // So nothing conversational is covered by item k except item k itself.
  lemma RawBeyond(store: Store, w: seq<WindowItem>, k: nat, j: nat)
    requires LogOk(store.log) && WindowOk(store, w) && k < |w| && j <= Horizon(w)
    requires forall i | j <= i < Horizon(w) && Seen(store, w)[i].conversational :: HoldsRaw(w, k, store.log[i])
    ensures
      var mine := if w[k].ref.MessageRef? then w[k].latest - 1 else w[k].latest;
      forall i | j <= i < mine && i < Horizon(w) :: !Seen(store, w)[i].conversational
    ensures forall i | Max(j, w[k].latest) <= i < Horizon(w) && Seen(store, w)[i].conversational ::
      HoldsRaw(w, k + 1, store.log[i])
  {
    forall i | j <= i < Horizon(w) && Seen(store, w)[i].conversational
      ensures i < w[k].latest ==> w[k].latest == i + 1 && w[k].ref.MessageRef?
      ensures i >= w[k].latest ==> HoldsRaw(w, k + 1, store.log[i])
    {
      RawFrom(store, w, k, i);
    }
  }

  // ---- the window's tail is the log's tail ----

  // The first message at or after i whose successors leave a floor open, if any.
  lemma {:induction false} TailStart(es: seq<Entry>, i: nat, freshTail: int, freshTokens: int) returns (j: nat)
    requires i <= |es| && !TailOpen(es, i, freshTail, freshTokens)
    ensures i <= j <= |es| && !TailOpen(es, j, freshTail, freshTokens)
    ensures forall k | j <= k < |es| && es[k].conversational :: InTail(es, k, freshTail, freshTokens)
    decreases |es| - i
  {
    if i == |es| || TailOpen(es, i + 1, freshTail, freshTokens) {
      j := i;
      forall k | j <= k < |es| && es[k].conversational
        ensures InTail(es, k, freshTail, freshTokens)
      {
        TailOpenMonotone(es, i + 1, k + 1, freshTail, freshTokens);
      }
    } else {
      j := TailStart(es, i + 1, freshTail, freshTokens);
    }
  }

  // The engine protects a window item exactly when the log's rule keeps its message.
  lemma TailAgrees(store: Store, w: seq<WindowItem>, k: nat, freshTail: int, freshTokens: int)
    requires LogOk(store.log) && WindowOk(store, w) && RawTail(store, w, freshTail, freshTokens) && k < |w|
    ensures 0 < w[k].earliest <= Horizon(w)
    ensures InTail(WindowEntries(w), k, freshTail, freshTokens)
            <==> w[k].ref.MessageRef? && InTail(Seen(store, w), w[k].earliest - 1, freshTail, freshTokens)
  {
    ItemEntry(store, w, k);
    if w[k].ref.MessageRef? {
      var es := Seen(store, w);
      var i := w[k].earliest - 1;
      WindowCountsAtMost(store, w, k + 1);
      if !TailOpen(es, i + 1, freshTail, freshTokens) {
        var j := TailStart(es, i + 1, freshTail, freshTokens);
        RawAfter(store, w, k, j, freshTail, freshTokens);
        WindowCountsAtLeast(store, w, k + 1, j);
      }
    }
  }

  lemma RawAfter(store: Store, w: seq<WindowItem>, k: nat, j: nat, freshTail: int, freshTokens: int)
    requires LogOk(store.log) && WindowOk(store, w) && RawTail(store, w, freshTail, freshTokens) && k < |w|
    requires w[k].latest <= j <= Horizon(w)
    requires forall i | j <= i < Horizon(w) && Seen(store, w)[i].conversational ::
      InTail(Seen(store, w), i, freshTail, freshTokens)
    ensures forall i | j <= i < Horizon(w) && Seen(store, w)[i].conversational :: HoldsRaw(w, k + 1, store.log[i])
  {
    forall i | j <= i < Horizon(w) && Seen(store, w)[i].conversational
      ensures HoldsRaw(w, k + 1, store.log[i])
    {
      assert HoldsRaw(w, 0, store.log[i]);
      var p :| 0 <= p < |w| && w[p] == MessageItem(store.log[i]);
      if p <= k {
        EarliestMonotone(w, p, k);
      }
    }
  }

  // ---- what each step does to the raw tail ----

  // A fold of messages outside the tail keeps the tail raw.
  lemma FoldKeepsRawTail(store: Store, t: Store, w: seq<WindowItem>, start: nat, end: nat, item: WindowItem,
                         freshTail: int, freshTokens: int)
    requires LogOk(store.log) && WindowOk(store, w) && RawTail(store, w, freshTail, freshTokens)
    requires Extends(store, t)
    requires start < end <= |w|
    requires forall k | start <= k < end :: !InTail(WindowEntries(w), k, freshTail, freshTokens)
    requires Horizon(ReplaceRange(w, start, end, item)) == Horizon(w)
    ensures RawTail(t, ReplaceRange(w, start, end, item), freshTail, freshTokens)
  {
    var u := ReplaceRange(w, start, end, item);
    assert t.log[..Horizon(w)] == store.log[..Horizon(w)];
    assert Seen(t, u) == Seen(store, w);
    forall i | 0 <= i < Horizon(w) && InTail(Seen(store, w), i, freshTail, freshTokens)
      ensures HoldsRaw(u, 0, store.log[i])
    {
      FoldHoldsRaw(store, w, start, end, item, freshTail, freshTokens, i);
    }
    forall i | 0 <= i < Horizon(u) && InTail(Seen(t, u), i, freshTail, freshTokens)
      ensures HoldsRaw(u, 0, t.log[i])
    {
      assert t.log[i] == store.log[i];
    }
  }

  lemma FoldHoldsRaw(store: Store, w: seq<WindowItem>, start: nat, end: nat, item: WindowItem,
                     freshTail: int, freshTokens: int, i: nat)
    requires LogOk(store.log) && WindowOk(store, w) && RawTail(store, w, freshTail, freshTokens)
    requires start < end <= |w|
    requires forall k | start <= k < end :: !InTail(WindowEntries(w), k, freshTail, freshTokens)
    requires i < Horizon(w) && InTail(Seen(store, w), i, freshTail, freshTokens)
    ensures HoldsRaw(ReplaceRange(w, start, end, item), 0, store.log[i])
  {
    hide Tiles, CountFrom, TokensFrom, ReplaceRange;
    assert HoldsRaw(w, 0, store.log[i]);
    var p :| 0 <= p < |w| && w[p] == MessageItem(store.log[i]);
    TailAgrees(store, w, p, freshTail, freshTokens);
    KeptByFold(w, start, end, item, p);
  }

  lemma KeptByFold(w: seq<WindowItem>, start: nat, end: nat, item: WindowItem, p: nat)
    requires start < end <= |w| && p < |w| && !(start <= p < end)
    ensures exists q :: 0 <= q < |ReplaceRange(w, start, end, item)| && ReplaceRange(w, start, end, item)[q] == w[p]
  {
    var q := if p < start then p else p - (end - start) + 1;
    assert ReplaceRange(w, start, end, item)[q] == w[p];
  }

  // Newer messages only push older ones out of the tail.
  lemma {:induction false} TailShrinks(es: seq<Entry>, n: nat, i: nat)
    requires i <= n <= |es|
    ensures CountFrom(es[..n], i) <= CountFrom(es, i) && TokensFrom(es[..n], i) <= TokensFrom(es, i)
    decreases n - i
  {
    if i < n {
      TailShrinks(es, n, i + 1);
    }
  }

  // A window extended by the messages logged since keeps the tail raw.
  lemma ExtendKeepsRawTail(store: Store, t: Store, w: seq<WindowItem>, u: seq<WindowItem>, freshTail: int,
                           freshTokens: int)
    requires WindowOk(store, w) && RawTail(store, w, freshTail, freshTokens)
    requires Extends(store, t)
    requires u == w + MessageItems(t.log[Horizon(w)..]) && Horizon(u) == |t.log|
    ensures RawTail(t, u, freshTail, freshTokens)
  {
    hide CountFrom, TokensFrom, ItemOk, Tiles;
    var n := Horizon(w);
    var before, after := Seen(store, w), Seen(t, u);
    assert before == after[..n];
    forall i | 0 <= i < Horizon(u) && InTail(after, i, freshTail, freshTokens)
      ensures HoldsRaw(u, 0, t.log[i])
    {
      if i < n {
        TailShrinks(after, n, i + 1);
        assert InTail(before, i, freshTail, freshTokens);
        assert HoldsRaw(w, 0, store.log[i]);
        var p :| 0 <= p < |w| && w[p] == MessageItem(store.log[i]);
        assert u[p] == w[p];
      } else {
        assert u[|w| + i - n] == MessageItem(t.log[i]);
      }
    }
  }
}
