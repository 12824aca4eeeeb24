// Lossless recovery: walking the link tables beneath a summary down to its verbatim
// messages. A leaf links the messages it stands for, a condensed summary the adjacent
// summaries it was folded from, each one level below it. Both listings are ordered, by
// position and by earliest position, so each query has one answer; and the walk ends,
// since depths fall on the way down.
module Expand {
  import opened Core
  import opened Dag

  // ---- the two ordered queries ----

  // The linked messages in log order, which is seq order.
  function SummaryMessages(log: seq<Message>, links: set<(SummaryId, MessageId)>, id: SummaryId): seq<Message> {
    if log == [] then []
    else
      var m := log[|log| - 1];
      SummaryMessages(log[..|log| - 1], links, id) + (if (id, m.id) in links then [m] else [])
  }

  // A result of the children query: the linked rows, each once, by earliest position.
  ghost predicate IsChildListing(store: Store, id: SummaryId, rows: seq<Summary>) {
    && (forall i | 0 <= i < |rows| :: rows[i].id in store.summaries && store.summaries[rows[i].id] == rows[i])
    && (forall i | 0 <= i < |rows| :: (id, rows[i].id) in store.childLinks)
    && (forall c | c in store.summaries && (id, c) in store.childLinks :: store.summaries[c] in rows)
    && (forall i, j | 0 <= i < j < |rows| :: rows[i] != rows[j] && rows[i].earliest <= rows[j].earliest)
  }

  lemma {:induction false} MessagesInRange(log: seq<Message>, links: set<(SummaryId, MessageId)>, id: SummaryId,
                                           e: nat, l: nat, n: nat)
    requires 1 <= e <= l <= |log| && n <= |log|
    requires forall i | 0 <= i < |log| :: (id, log[i].id) in links <==> e - 1 <= i < l
    ensures SummaryMessages(log[..n], links, id) == if n < e then [] else log[e - 1..Min(n, l)]
  {
    if n > 0 {
      MessagesInRange(log, links, id, e, l, n - 1);
      assert log[..n][..n - 1] == log[..n - 1];
      if e <= n <= l {
        assert log[e - 1..n - 1] + [log[n - 1]] == log[e - 1..n];
      }
    }
  }

  lemma LinksAreRange(log: seq<Message>, links: set<(SummaryId, MessageId)>, id: SummaryId, e: nat, l: nat)
    requires LogOk(log) && 1 <= e <= l <= |log|
    requires forall m :: (id, m) in links <==> m in Ids(log[e - 1..l])
    ensures forall i | 0 <= i < |log| :: (id, log[i].id) in links <==> e - 1 <= i < l
  {
    var span := log[e - 1..l];
    forall i | 0 <= i < |log|
      ensures (id, log[i].id) in links <==> e - 1 <= i < l
    {
      if e - 1 <= i < l {
        assert Ids(span)[i - (e - 1)] == log[i].id;
      }
      if (id, log[i].id) in links {
        var k :| 0 <= k < |span| && Ids(span)[k] == log[i].id;
        assert i == e - 1 + k;
      }
    }
  }

  lemma LeafMessages(store: Store, id: SummaryId)
    requires StoreOk(store) && id in store.summaries && store.summaries[id].kind == Leaf
    ensures
      var s := store.summaries[id];
      && 1 <= s.earliest <= s.latest <= |store.log|
      && SummaryMessages(store.log, store.messageLinks, id) == store.log[s.earliest - 1..s.latest]
  {
    assert RowOk(store, id);
    var s := store.summaries[id];
    LinksAreRange(store.log, store.messageLinks, id, s.earliest, s.latest);
    MessagesInRange(store.log, store.messageLinks, id, s.earliest, s.latest, |store.log|);
    assert store.log[..|store.log|] == store.log;
  }

  function RowsOf(summaries: map<SummaryId, Summary>, ids: seq<SummaryId>): (rows: seq<Summary>)
    requires forall c | c in ids :: c in summaries
    ensures |rows| == |ids| && forall k | 0 <= k < |ids| :: rows[k] == summaries[ids[k]]
  {
    seq(|ids|, k requires 0 <= k < |ids| => summaries[ids[k]])
  }

  // Later children of a chain start later.
  lemma {:induction false} ChainIncreasing(store: Store, children: seq<SummaryId>, depth: nat, e: nat, l: nat,
                                           i: nat, j: nat)
    requires StoreOk(store) && Chain(store.summaries, children, depth, e, l)
    requires i < j < |children|
    ensures store.summaries[children[i]].earliest <= store.summaries[children[i]].latest
            < store.summaries[children[j]].earliest
    decreases j
  {
    assert RowOk(store, children[i]) && RowOk(store, children[j - 1]);
    assert store.summaries[children[j]].earliest == store.summaries[children[j - 1]].latest + 1;
    if i < j - 1 {
      ChainIncreasing(store, children, depth, e, l, i, j - 1);
    }
  }

  // What the row invariant says about the children of a condensed summary.
  lemma CondensedChildren(store: Store, id: SummaryId)
    requires StoreOk(store) && id in store.summaries && id.CondensedId?
    ensures forall c | c in id.children :: c in store.summaries && store.summaries[c].id == c
    ensures forall c :: (id, c) in store.childLinks <==> c in id.children
    ensures
      var rows := RowsOf(store.summaries, id.children);
      forall i, j | 0 <= i < j < |rows| :: rows[i].earliest < rows[j].earliest
  {
    assert RowOk(store, id);
    var s := store.summaries[id];
    forall c | c in id.children
      ensures c in store.summaries && store.summaries[c].id == c
    {
      assert RowOk(store, c);
    }
    var rows := RowsOf(store.summaries, id.children);
    forall i, j | 0 <= i < j < |rows|
      ensures rows[i].earliest < rows[j].earliest
    {
      ChainIncreasing(store, id.children, id.depth - 1, s.earliest, s.latest, i, j);
    }
  }

  lemma ChildrenAreListing(store: Store, id: SummaryId)
    requires StoreOk(store) && id in store.summaries && id.CondensedId?
    ensures forall c | c in id.children :: c in store.summaries
    ensures IsChildListing(store, id, RowsOf(store.summaries, id.children))
  {
    CondensedChildren(store, id);
    var rows := RowsOf(store.summaries, id.children);
    forall c | c in store.summaries && (id, c) in store.childLinks
      ensures store.summaries[c] in rows
    {
      var k :| 0 <= k < |id.children| && id.children[k] == c;
      assert rows[k] == store.summaries[c];
    }
  }

  // The children query has exactly one possible answer: the children in the order they were folded.
  lemma ChildListingUnique(store: Store, id: SummaryId, rows: seq<Summary>)
    requires StoreOk(store) && id in store.summaries && id.CondensedId?
    requires IsChildListing(store, id, rows)
    ensures forall c | c in id.children :: c in store.summaries && store.summaries[c].id == c
    ensures rows == RowsOf(store.summaries, id.children)
  {
    CondensedChildren(store, id);
    ListingDetermined(store, id, id.children, rows);
  }

  lemma ListingDetermined(store: Store, id: SummaryId, children: seq<SummaryId>, rows: seq<Summary>)
    requires IsChildListing(store, id, rows)
    requires forall c | c in children :: c in store.summaries && store.summaries[c].id == c
    requires forall c :: (id, c) in store.childLinks <==> c in children
    requires
      var expected := RowsOf(store.summaries, children);
      forall i, j | 0 <= i < j < |expected| :: expected[i].earliest < expected[j].earliest
    ensures rows == RowsOf(store.summaries, children)
  {
    var expected := RowsOf(store.summaries, children);
    forall r
      ensures r in rows <==> r in expected
    {
      if r in rows {
        assert (id, r.id) in store.childLinks;
        var k :| 0 <= k < |children| && children[k] == r.id;
        assert expected[k] == r;
      }
      if r in expected {
        var k :| 0 <= k < |expected| && expected[k] == r;
        assert (id, children[k]) in store.childLinks;
      }
    }
    forall i, j | 0 <= i < j < |rows|
      ensures rows[i].earliest < rows[j].earliest
    {
      assert rows[i] in expected && rows[j] in expected;
      DistinctRows(expected, rows[i], rows[j]);
    }
    SortedRowsUnique(rows, expected);
  }

  lemma DistinctRows(rows: seq<Summary>, a: Summary, b: Summary)
    requires forall i, j | 0 <= i < j < |rows| :: rows[i].earliest < rows[j].earliest
    requires a in rows && b in rows && a != b
    ensures a.earliest != b.earliest
  {
    var p :| 0 <= p < |rows| && rows[p] == a;
    var q :| 0 <= q < |rows| && rows[q] == b;
    if p < q {
      assert rows[p].earliest < rows[q].earliest;
    } else {
      assert rows[q].earliest < rows[p].earliest;
    }
  }

  lemma {:induction false} SortedRowsUnique(a: seq<Summary>, b: seq<Summary>)
    requires forall i, j | 0 <= i < j < |a| :: a[i].earliest < a[j].earliest
    requires forall i, j | 0 <= i < j < |b| :: b[i].earliest < b[j].earliest
    requires forall r :: r in a <==> r in b
    ensures a == b
  {
    if a != [] {
      assert a[0] in b;
    }
    if b != [] {
      assert b[0] in a;
    }
    if a != [] {
      assert a[0] == b[0];
      forall r
        ensures r in a[1..] <==> r in b[1..]
      {
        assert r in a <==> r == a[0] || r in a[1..];
        assert r in b <==> r == b[0] || r in b[1..];
        assert r in a[1..] ==> r != a[0];
        assert r in b[1..] ==> r != b[0];
      }
      SortedRowsUnique(a[1..], b[1..]);
    }
  }

  // ---- the recursive walk ----

  ghost function ChildListing(store: Store, id: SummaryId): (rows: seq<Summary>)
    requires StoreOk(store) && id in store.summaries && id.CondensedId?
    ensures IsChildListing(store, id, rows)
  {
    ChildrenAreListing(store, id);
    var rows :| IsChildListing(store, id, rows);
    rows
  }

  // What the walk collects when nothing was collected before. It ends because a
  // child's depth is one less than its parent's.
  ghost function Expansion(store: Store, id: SummaryId): seq<Message>
    requires StoreOk(store) && id in store.summaries
    decreases store.summaries[id].depth, 1, 0
  {
    assert RowOk(store, id);
    if store.summaries[id].kind == Leaf then SummaryMessages(store.log, store.messageLinks, id)
    else
      ChildListingUnique(store, id, ChildListing(store, id));
      ExpandRows(store, ChildListing(store, id), store.summaries[id].depth)
  }

  ghost function ExpandRows(store: Store, rows: seq<Summary>, depth: nat): seq<Message>
    requires StoreOk(store)
    requires forall i | 0 <= i < |rows| :: rows[i].id in store.summaries && store.summaries[rows[i].id] == rows[i]
    requires forall i | 0 <= i < |rows| :: rows[i].depth < depth
    decreases depth, 0, |rows|
  {
    if rows == [] then []
    else ExpandRows(store, rows[..|rows| - 1], depth) + Expansion(store, rows[|rows| - 1].id)
  }

  lemma LeafExpansion(store: Store, id: SummaryId)
    requires StoreOk(store) && id in store.summaries && store.summaries[id].kind == Leaf
    ensures SpanOk(store.log, store.summaries[id])
    ensures Expansion(store, id) == store.log[store.summaries[id].earliest - 1..store.summaries[id].latest]
  {
    assert RowOk(store, id);
    LeafMessages(store, id);
  }

  // The listing of a condensed summary's children: a chain of rows over its span.
  lemma CondensedExpansion(store: Store, id: SummaryId) returns (rows: seq<Summary>)
    requires StoreOk(store) && id in store.summaries && store.summaries[id].kind == Condensed
    ensures SpanOk(store.log, store.summaries[id])
    ensures |rows| > 0 && rows[0].earliest == store.summaries[id].earliest
    ensures rows[|rows| - 1].latest == store.summaries[id].latest
    ensures forall i | 0 <= i < |rows| :: rows[i].id in store.summaries && store.summaries[rows[i].id] == rows[i]
    ensures forall i | 0 <= i < |rows| :: rows[i].depth < store.summaries[id].depth
    ensures forall i | 0 < i < |rows| :: rows[i].earliest == rows[i - 1].latest + 1
    ensures Expansion(store, id) == ExpandRows(store, rows, store.summaries[id].depth)
  {
    assert RowOk(store, id);
    rows := ChildListing(store, id);
    ChildListingUnique(store, id, rows);
  }

  // Every stored summary, whether or not any window still points at it, expands
  // to exactly the span of the log it claims to cover.
  lemma {:induction false} ExpansionIsSpan(store: Store, id: SummaryId)
    requires StoreOk(store) && id in store.summaries
    ensures SpanOk(store.log, store.summaries[id])
    ensures
      var s := store.summaries[id];
      && Expansion(store, id) == store.log[s.earliest - 1..s.latest]
      && |Expansion(store, id)| == s.descendants
    decreases store.summaries[id].depth, 1, 0
  {
    if store.summaries[id].kind == Leaf {
      LeafExpansion(store, id);
    } else {
      var rows := CondensedExpansion(store, id);
      ExpandRowsIsSpan(store, rows, store.summaries[id].depth);
    }
  }

  lemma ExpansionExtends(s: Store, t: Store, id: SummaryId)
    requires StoreOk(s) && StoreOk(t) && Extends(s, t) && id in s.summaries
    ensures Expansion(t, id) == Expansion(s, id)
  {
    ExpansionIsSpan(s, id);
    ExpansionIsSpan(t, id);
    var row := s.summaries[id];
    assert s.log[row.earliest - 1..row.latest] == t.log[row.earliest - 1..row.latest];
  }

  lemma {:induction false} ExpandRowsIsSpan(store: Store, rows: seq<Summary>, depth: nat)
    requires StoreOk(store) && |rows| > 0
    requires forall i | 0 <= i < |rows| :: rows[i].id in store.summaries && store.summaries[rows[i].id] == rows[i]
    requires forall i | 0 <= i < |rows| :: rows[i].depth < depth
    requires forall i | 0 < i < |rows| :: rows[i].earliest == rows[i - 1].latest + 1
    ensures 1 <= rows[0].earliest <= rows[|rows| - 1].latest <= |store.log|
    ensures ExpandRows(store, rows, depth) == store.log[rows[0].earliest - 1..rows[|rows| - 1].latest]
    decreases depth, 0, |rows|
  {
    var n := |rows| - 1;
    ExpansionIsSpan(store, rows[n].id);
    ExpandRowsStep(store, rows, depth);
    if n > 0 {
      ExpandRowsIsSpan(store, rows[..n], depth);
      SpansAbut(store.log, rows[0].earliest - 1, rows[n - 1].latest, rows[n].latest);
    } else {
      assert rows[..0] == [];
    }
  }

  lemma SpansAbut(log: seq<Message>, from: nat, mid: nat, to: nat)
    requires from <= mid <= to <= |log|
    ensures log[from..mid] + log[mid..to] == log[from..to]
  {
  }

  lemma ExpandRowsStep(store: Store, rows: seq<Summary>, depth: nat)
    requires StoreOk(store) && |rows| > 0
    requires forall i | 0 <= i < |rows| :: rows[i].id in store.summaries && store.summaries[rows[i].id] == rows[i]
    requires forall i | 0 <= i < |rows| :: rows[i].depth < depth
    ensures ExpandRows(store, [], depth) == []
    ensures ExpandRows(store, rows, depth)
            == ExpandRows(store, rows[..|rows| - 1], depth) + Expansion(store, rows[|rows| - 1].id)
  {
  }
}
