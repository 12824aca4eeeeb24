// The in-memory active window: which items are protected, which block is folded
// next, and what a fold does to the span the window covers.
module Window {
  import opened Core
  import opened Dag

  // A summary's item carries no role; the source leaves the field at its zero value.
  const NO_ROLE := Unrecognized("")

  datatype WindowItem = WindowItem(
    ref: Ref,
    role: Role,
    tokens: nat,
    earliest: nat,
    latest: nat,
    depth: nat)

  function MessageItem(m: Message): WindowItem {
    WindowItem(MessageRef(m.id), m.role, m.tokenCount, m.position, m.position, 0)
  }

  function SummaryItem(s: Summary): WindowItem {
    WindowItem(SummaryRef(s.id), NO_ROLE, s.tokenCount, s.earliest, s.latest, s.depth)
  }

  function MessageItems(messages: seq<Message>): (items: seq<WindowItem>)
    ensures |items| == |messages| && forall i | 0 <= i < |items| :: items[i] == MessageItem(messages[i])
  {
    seq(|messages|, i requires 0 <= i < |messages| => MessageItem(messages[i]))
  }

  function Refs(w: seq<WindowItem>): (refs: seq<Ref>)
    ensures |refs| == |w| && forall i | 0 <= i < |w| :: refs[i] == w[i].ref
  {
    seq(|w|, i requires 0 <= i < |w| => w[i].ref)
  }

  function SpanTokens(w: seq<WindowItem>, from: nat, end: nat): nat
    requires from <= end <= |w|
  {
    if from == end then 0 else SpanTokens(w, from, end - 1) + w[end - 1].tokens
  }

  function WindowTokens(w: seq<WindowItem>): nat {
    SpanTokens(w, 0, |w|)
  }

  // ---- the coverage invariant ----

  // An item mirrors the row it points at.
  predicate ItemOk(store: Store, it: WindowItem) {
    match it.ref
    case MessageRef(_) => 1 <= it.earliest <= |store.log| && it == MessageItem(store.log[it.earliest - 1])
    case SummaryRef(id) => id in store.summaries && it == SummaryItem(store.summaries[id])
    case OtherRef(_, _) => false
  }

  // Item ranges start at 1, abut and never overlap.
  predicate Tiles(w: seq<WindowItem>) {
    && (forall k | 0 <= k < |w| :: w[k].earliest <= w[k].latest)
    && (|w| > 0 ==> w[0].earliest == 1)
    && (forall k | 0 < k < |w| :: w[k].earliest == w[k - 1].latest + 1)
  }

  // The last message the window covers.
  function Horizon(w: seq<WindowItem>): nat {
    if w == [] then 0 else w[|w| - 1].latest
  }

  ghost predicate WindowOk(store: Store, w: seq<WindowItem>) {
    && (forall k | 0 <= k < |w| :: ItemOk(store, w[k]))
    && Tiles(w)
    && Horizon(w) <= |store.log|
  }

  lemma WindowOkExtends(s: Store, t: Store, w: seq<WindowItem>)
    requires WindowOk(s, w) && Extends(s, t)
    ensures WindowOk(t, w)
  {
    forall k | 0 <= k < |w|
      ensures ItemOk(t, w[k])
    {
      assert ItemOk(s, w[k]);
    }
  }

  // ---- the protected fresh tail ----

  // What the tail rule sees of an item or of a logged message.
  datatype Entry = Entry(conversational: bool, tokens: nat)

  predicate IsConversational(it: WindowItem) {
    it.ref.MessageRef? && it.role != Tool
  }

  function WindowEntries(w: seq<WindowItem>): (es: seq<Entry>)
    ensures |es| == |w| && forall i | 0 <= i < |w| :: es[i] == Entry(IsConversational(w[i]), w[i].tokens)
  {
    seq(|w|, i requires 0 <= i < |w| => Entry(IsConversational(w[i]), w[i].tokens))
  }

  // Conversational entries at or after i, and their tokens.
  function CountFrom(es: seq<Entry>, i: nat): nat
    requires i <= |es|
    decreases |es| - i
  {
    if i == |es| then 0 else CountFrom(es, i + 1) + (if es[i].conversational then 1 else 0)
  }

  function TokensFrom(es: seq<Entry>, i: nat): nat
    requires i <= |es|
    decreases |es| - i
  {
    if i == |es| then 0 else TokensFrom(es, i + 1) + (if es[i].conversational then es[i].tokens else 0)
  }

  // Entries after i do not yet satisfy both floors.
  predicate TailOpen(es: seq<Entry>, i: nat, freshTail: int, freshTokens: int)
    requires i <= |es|
  {
    CountFrom(es, i) < freshTail || TokensFrom(es, i) < freshTokens
  }

  // An entry is in the fresh tail when the newer conversational entries leave a floor open.
  predicate InTail(es: seq<Entry>, i: nat, freshTail: int, freshTokens: int)
    requires i < |es|
  {
    es[i].conversational && TailOpen(es, i + 1, freshTail, freshTokens)
  }

  lemma {:induction false} TailOpenMonotone(es: seq<Entry>, i: nat, j: nat, freshTail: int, freshTokens: int)
    requires i <= j <= |es|
    ensures CountFrom(es, j) <= CountFrom(es, i) && TokensFrom(es, j) <= TokensFrom(es, i)
    ensures TailOpen(es, i, freshTail, freshTokens) ==> TailOpen(es, j, freshTail, freshTokens)
    decreases j - i
  {
    if i < j {
      TailOpenMonotone(es, i + 1, j, freshTail, freshTokens);
    }
  }

  // The tokens of the kept items from i on.
  function KeptTokens(w: seq<WindowItem>, kept: set<nat>, i: nat): nat
    requires i <= |w|
    decreases |w| - i
  {
    if i == |w| then 0 else KeptTokens(w, kept, i + 1) + (if i in kept then w[i].tokens else 0)
  }

  // The newest raw messages that are not tool results, as few as meet both floors, or
  // all there are.
  ghost predicate FewestNewest(w: seq<WindowItem>, kept: set<nat>, freshTail: int, freshTokens: int) {
    && (forall i | i in kept :: i < |w| && w[i].ref.MessageRef? && w[i].role != Tool)
    && (forall i, j: nat | i in kept && i < j < |w| && w[j].ref.MessageRef? && w[j].role != Tool :: j in kept)
    && ((|kept| >= freshTail && KeptTokens(w, kept, 0) >= freshTokens)
        || forall j: nat | j < |w| && w[j].ref.MessageRef? && w[j].role != Tool :: j in kept)
    && (forall o | o in kept && (forall i | i in kept :: o <= i) ::
          |kept| - 1 < freshTail || KeptTokens(w, kept, 0) - w[o].tokens < freshTokens)
  }

  lemma {:induction false} KeptTokensSame(w: seq<WindowItem>, a: set<nat>, b: set<nat>, i: nat)
    requires i <= |w| && forall k: nat | i <= k < |w| :: k in a <==> k in b
    ensures KeptTokens(w, a, i) == KeptTokens(w, b, i)
    decreases |w| - i
  {
    if i < |w| {
      KeptTokensSame(w, a, b, i + 1);
    }
  }

  lemma {:induction false} KeptTokensBelow(w: seq<WindowItem>, kept: set<nat>, i: nat)
    requires i <= |w| && forall k | k in kept :: i <= k
    ensures KeptTokens(w, kept, 0) == KeptTokens(w, kept, i)
    decreases i
  {
    if i > 0 {
      KeptTokensBelow(w, kept, i - 1);
    }
  }

  // The entries from i on that are in the tail, and what those entries add up to.
  ghost predicate TailTo(w: seq<WindowItem>, i: nat, kept: set<nat>, seen: int, tokens: int, freshTail: int,
                         freshTokens: int)
  {
    var es := WindowEntries(w);
    && i <= |w| && seen == CountFrom(es, i) && tokens == TokensFrom(es, i)
    && forall k: nat :: k in kept <==> i <= k < |w| && InTail(es, k, freshTail, freshTokens)
  }

  lemma TailOn(w: seq<WindowItem>, i: nat, kept: set<nat>, seen: int, tokens: int, freshTail: int, freshTokens: int)
    requires 0 < i && TailTo(w, i, kept, seen, tokens, freshTail, freshTokens)
    requires seen < freshTail || tokens < freshTokens
    ensures
      var it := w[i - 1];
      if IsConversational(it)
      then TailTo(w, i - 1, kept + {i - 1}, seen + 1, tokens + it.tokens, freshTail, freshTokens)
      else TailTo(w, i - 1, kept, seen, tokens, freshTail, freshTokens)
  {
    var n: nat := i - 1;
    assert TailOpen(WindowEntries(w), n + 1, freshTail, freshTokens);
  }

  lemma TailEnds(w: seq<WindowItem>, i: nat, kept: set<nat>, seen: int, tokens: int, freshTail: int,
                 freshTokens: int)
    requires TailTo(w, i, kept, seen, tokens, freshTail, freshTokens)
    requires i == 0 || (seen >= freshTail && tokens >= freshTokens)
    ensures forall k: nat :: k in kept <==> k < |w| && InTail(WindowEntries(w), k, freshTail, freshTokens)
  {
    var es := WindowEntries(w);
    forall k: nat | k < i
      ensures !InTail(es, k, freshTail, freshTokens)
    {
      TailOpenMonotone(es, k + 1, i, freshTail, freshTokens);
    }
  }

  // The scan so far, from the end down to i.
  ghost predicate ScannedTo(w: seq<WindowItem>, i: nat, kept: set<nat>, seen: int, tokens: int, freshTail: int,
                            freshTokens: int)
  {
    && i <= |w| && seen == |kept| && tokens == KeptTokens(w, kept, i)
    && (forall k: nat :: k in kept <==> i <= k < |w| && w[k].ref.MessageRef? && w[k].role != Tool)
    && (forall o | o in kept && (forall k | k in kept :: o <= k) ::
          seen - 1 < freshTail || tokens - w[o].tokens < freshTokens)
  }

  lemma ScanOn(w: seq<WindowItem>, i: nat, kept: set<nat>, seen: int, tokens: int, freshTail: int, freshTokens: int)
    requires 0 < i && ScannedTo(w, i, kept, seen, tokens, freshTail, freshTokens)
    requires seen < freshTail || tokens < freshTokens
    ensures
      var it := w[i - 1];
      if it.ref.MessageRef? && it.role != Tool
      then ScannedTo(w, i - 1, kept + {i - 1}, seen + 1, tokens + it.tokens, freshTail, freshTokens)
      else ScannedTo(w, i - 1, kept, seen, tokens, freshTail, freshTokens)
  {
    var n: nat := i - 1;
    KeptTokensSame(w, kept, kept + {n}, i);
  }

  lemma ScanEnds(w: seq<WindowItem>, i: nat, kept: set<nat>, seen: int, tokens: int, freshTail: int, freshTokens: int)
    requires ScannedTo(w, i, kept, seen, tokens, freshTail, freshTokens)
    requires i == 0 || (seen >= freshTail && tokens >= freshTokens)
    ensures FewestNewest(w, kept, freshTail, freshTokens)
  {
    KeptTokensBelow(w, kept, i);
  }

  lemma ScanStarts(w: seq<WindowItem>, freshTail: int, freshTokens: int)
    ensures ScannedTo(w, |w|, {}, 0, 0, freshTail, freshTokens)
    ensures TailTo(w, |w|, {}, 0, 0, freshTail, freshTokens)
  {
  }

  method ProtectedSet(w: seq<WindowItem>, freshTail: int, freshTokens: int) returns (protected: set<nat>)
    ensures forall i: nat :: i in protected <==> i < |w| && InTail(WindowEntries(w), i, freshTail, freshTokens)
    ensures FewestNewest(w, protected, freshTail, freshTokens)
  {
    hide ScannedTo, TailTo, FewestNewest;
    protected := {};
    ScanStarts(w, freshTail, freshTokens);
    if freshTail <= 0 && freshTokens <= 0 {
      ScanEnds(w, |w|, {}, 0, 0, freshTail, freshTokens);
      TailEnds(w, |w|, {}, 0, 0, freshTail, freshTokens);
      return;
    }
    var seen, tokenTotal := 0, 0;
    var i := |w| - 1;
    while i >= 0 && (seen < freshTail || tokenTotal < freshTokens)
      invariant -1 <= i < |w|
      invariant TailTo(w, i + 1, protected, seen, tokenTotal, freshTail, freshTokens)
      invariant ScannedTo(w, i + 1, protected, seen, tokenTotal, freshTail, freshTokens)
    {
      TailOn(w, i + 1, protected, seen, tokenTotal, freshTail, freshTokens);
      ScanOn(w, i + 1, protected, seen, tokenTotal, freshTail, freshTokens);
      if IsConversational(w[i]) {
        protected := protected + {i};
        seen := seen + 1;
        tokenTotal := tokenTotal + w[i].tokens;
      }
      i := i - 1;
    }
    TailEnds(w, i + 1, protected, seen, tokenTotal, freshTail, freshTokens);
    ScanEnds(w, i + 1, protected, seen, tokenTotal, freshTail, freshTokens);
  }

  // ---- the next leaf block ----

  ghost predicate Foldable(w: seq<WindowItem>, i: nat, freshTail: int, freshTokens: int)
    requires i < |w|
  {
    w[i].ref.MessageRef? && !InTail(WindowEntries(w), i, freshTail, freshTokens)
  }

  // The first foldable message and the run after it, stopped by the first item that
  // is not foldable or by the message that reaches the chunk size.
  ghost predicate IsMessageBlock(w: seq<WindowItem>, freshTail: int, freshTokens: int, chunk: int, start: nat,
                                 end: nat)
  {
    && start < end <= |w|
    && (forall k: nat | k < start :: !Foldable(w, k, freshTail, freshTokens))
    && (forall k: nat | start <= k < end :: Foldable(w, k, freshTail, freshTokens))
    && (forall k: nat | start < k < end :: SpanTokens(w, start, k) < chunk)
    && (end < |w| ==> !Foldable(w, end, freshTail, freshTokens) || SpanTokens(w, start, end) >= chunk)
  }

  ghost predicate NoMessageBlock(w: seq<WindowItem>, freshTail: int, freshTokens: int) {
    forall k: nat | k < |w| :: !Foldable(w, k, freshTail, freshTokens)
  }

  method FindMessageBlock(w: seq<WindowItem>, protected: set<nat>, ghost freshTail: int, ghost freshTokens: int,
                          chunk: int)
    returns (start: nat, end: nat, ok: bool)
    requires forall i: nat :: i in protected <==> i < |w| && InTail(WindowEntries(w), i, freshTail, freshTokens)
    ensures ok ==> IsMessageBlock(w, freshTail, freshTokens, chunk, start, end)
    ensures !ok ==> NoMessageBlock(w, freshTail, freshTokens)
  {
    var i := 0;
    while i < |w| && (!w[i].ref.MessageRef? || i in protected)
      invariant 0 <= i <= |w|
      invariant forall k: nat | k < i :: !Foldable(w, k, freshTail, freshTokens)
    {
      i := i + 1;
    }
    if i >= |w| {
      return 0, 0, false;
    }
    end := i;
    var tok := 0;
    while end < |w| && w[end].ref.MessageRef? && end !in protected
      invariant i <= end <= |w|
      invariant end == i ==> tok == 0
      invariant tok == SpanTokens(w, i, end)
      invariant forall k: nat | i <= k < end :: Foldable(w, k, freshTail, freshTokens)
      invariant forall k: nat | i < k <= end :: SpanTokens(w, i, k) < chunk
    {
      tok := tok + w[end].tokens;
      end := end + 1;
      if tok >= chunk {
        break;
      }
    }
    return i, end, true;
  }

  // The block is a function of the window: the rule names one block at most.
  lemma MessageBlockUnique(w: seq<WindowItem>, freshTail: int, freshTokens: int, chunk: int,
                           start: nat, end: nat, start': nat, end': nat)
    requires IsMessageBlock(w, freshTail, freshTokens, chunk, start, end)
    requires IsMessageBlock(w, freshTail, freshTokens, chunk, start', end')
    ensures start == start' && end == end'
  {
    assert Foldable(w, start, freshTail, freshTokens) && Foldable(w, start', freshTail, freshTokens);
  }

  // Where the run of foldable messages from `start` ends, whatever their size.
  ghost predicate RunEndsAt(w: seq<WindowItem>, freshTail: int, freshTokens: int, start: nat, stop: nat) {
    && start < stop <= |w|
    && (forall k: nat | start <= k < stop :: Foldable(w, k, freshTail, freshTokens))
    && (stop < |w| ==> !Foldable(w, stop, freshTail, freshTokens))
  }

  // The message that reaches the chunk size is still taken, so a block stays within the
  // chunk exactly when its run is smaller than the chunk or some prefix of it hits it.
  lemma BlockWithinChunk(w: seq<WindowItem>, freshTail: int, freshTokens: int, chunk: int,
                         start: nat, end: nat, stop: nat)
    requires IsMessageBlock(w, freshTail, freshTokens, chunk, start, end)
    requires RunEndsAt(w, freshTail, freshTokens, start, stop)
    ensures SpanTokens(w, start, end) <= chunk
            <==> SpanTokens(w, start, stop) < chunk
                 || exists k: nat :: start < k <= stop && SpanTokens(w, start, k) == chunk
  {
    assert end <= stop;
    SpanTokensMonotone(w, start, end, stop);
    forall k: nat | end <= k <= stop
      ensures SpanTokens(w, start, end) <= SpanTokens(w, start, k)
    {
      SpanTokensMonotone(w, start, end, k);
    }
  }

  // Two messages of six tokens, the second of which carries the block past a chunk of eight.
  lemma BlockCanExceedChunk(m: WindowItem, n: WindowItem)
    requires m.ref.MessageRef? && m.tokens == 6 && n.ref.MessageRef? && n.tokens == 6
    ensures IsMessageBlock([m, n], 0, 0, 8, 0, 2) && RunEndsAt([m, n], 0, 0, 0, 2)
    ensures SpanTokens([m, n], 0, 2) == 12
  {
    assert SpanTokens([m, n], 0, 1) == 6;
  }

  // ---- the next run to condense ----

  // `fanout` adjacent summaries of one depth below the maximum, within the token cap.
  predicate Condensable(w: seq<WindowItem>, i: nat, fanout: nat, maxDepth: int, chunk: int) {
    && i + fanout <= |w|
    && (forall k | i <= k < i + fanout :: w[k].ref.SummaryRef? && w[k].depth == w[i].depth)
    && (fanout > 0 ==> w[i].depth < maxDepth)
    && SpanTokens(w, i, i + fanout) <= chunk
  }

  predicate IsCondenseRun(w: seq<WindowItem>, fanout: nat, maxDepth: int, chunk: int, start: nat) {
    && Condensable(w, start, fanout, maxDepth, chunk)
    && (forall k: nat | k < start :: !Condensable(w, k, fanout, maxDepth, chunk))
  }

  predicate NoCondenseRun(w: seq<WindowItem>, fanout: nat, maxDepth: int, chunk: int) {
    forall k: nat | k <= |w| :: !Condensable(w, k, fanout, maxDepth, chunk)
  }

  lemma {:induction false} SpanTokensMonotone(w: seq<WindowItem>, from: nat, mid: nat, end: nat)
    requires from <= mid <= end <= |w|
    ensures SpanTokens(w, from, mid) <= SpanTokens(w, from, end)
    decreases end
  {
    if mid < end {
      SpanTokensMonotone(w, from, mid, end - 1);
    }
  }

  method CondenseRun(w: seq<WindowItem>, fanout: nat, maxDepth: int, chunk: int)
    returns (start: nat, end: nat, ok: bool)
    requires fanout >= 2
    ensures ok ==> end == start + fanout && IsCondenseRun(w, fanout, maxDepth, chunk, start)
    ensures !ok ==> NoCondenseRun(w, fanout, maxDepth, chunk)
  {
    var i := 0;
    while i < |w|
      invariant 0 <= i <= |w|
      invariant forall k: nat | k < i :: !Condensable(w, k, fanout, maxDepth, chunk)
    {
      if !w[i].ref.SummaryRef? {
        i := i + 1;
        continue;
      }
      var d := w[i].depth;
      var j, tokens := i, 0;
      while j < |w| && j - i < fanout && w[j].ref.SummaryRef? && w[j].depth == d
        invariant i <= j <= |w| && j - i <= fanout
        invariant forall k | i <= k < j :: w[k].ref.SummaryRef? && w[k].depth == d
        invariant tokens == SpanTokens(w, i, j)
        invariant j > i ==> tokens <= chunk
      {
        if tokens + w[j].tokens > chunk {
          break;
        }
        tokens := tokens + w[j].tokens;
        j := j + 1;
      }
      if d < maxDepth && j - i == fanout {
        return i, j, true;
      }
      if j < i + fanout <= |w| && w[j].ref.SummaryRef? && w[j].depth == d {
        SpanTokensMonotone(w, i, j + 1, i + fanout);
      }
      i := i + 1;
    }
    return 0, 0, false;
  }

  // ---- folding ----

  function ReplaceRange(w: seq<WindowItem>, start: nat, end: nat, item: WindowItem): seq<WindowItem>
    requires start <= end <= |w|
  {
    w[..start] + [item] + w[end..]
  }

  // Replacing adjacent items by one item over their joint range keeps the window
  // tiling exactly the same messages.
  lemma FoldKeepsTiles(w: seq<WindowItem>, start: nat, end: nat, item: WindowItem)
    requires Tiles(w) && start < end <= |w|
    requires item.earliest == w[start].earliest && item.latest == w[end - 1].latest
    ensures Tiles(ReplaceRange(w, start, end, item))
    ensures Horizon(ReplaceRange(w, start, end, item)) == Horizon(w)
  {
    var t := ReplaceRange(w, start, end, item);
    EarliestMonotone(w, start, end - 1);
    forall k | 0 < k < |t|
      ensures t[k].earliest == t[k - 1].latest + 1
    {
      if k > start + 1 {
        assert t[k] == w[end + (k - start - 1)] && t[k - 1] == w[end + (k - start - 2)];
      } else if k == start + 1 {
        assert t[k] == w[end];
      }
    }
  }

  lemma {:induction false} EarliestMonotone(w: seq<WindowItem>, i: nat, j: nat)
    requires Tiles(w) && i <= j < |w|
    ensures w[i].earliest <= w[j].earliest && w[i].latest <= w[j].latest
    ensures i < j ==> w[i].latest < w[j].earliest
    ensures w[j].earliest - w[i].earliest >= j - i
    decreases j
  {
    if i < j {
      EarliestMonotone(w, i, j - 1);
      assert w[j].earliest == w[j - 1].latest + 1;
    }
  }
}
