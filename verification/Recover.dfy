// Lossless recovery as the engine runs it: a recursive walk that drops repeats
// and sorts what is left, while other processes act between any two queries.
module Recover {
  import opened Core
  import opened Dag
  import opened Expand
  import opened Protocol
  import opened Sqlite

  // ---- dropping repeats ----

  function IdSet(messages: seq<Message>): set<MessageId> {
    set m | m in messages :: m.id
  }

  // The messages the walk appends: the first of each ID not collected before.
  function Unseen(seen: set<MessageId>, messages: seq<Message>): seq<Message> {
    if messages == [] then []
    else
      var init, m := messages[..|messages| - 1], messages[|messages| - 1];
      Unseen(seen, init) + (if m.id in seen + IdSet(init) then [] else [m])
  }

  lemma UnseenStep(seen: set<MessageId>, messages: seq<Message>, m: Message)
    ensures Unseen(seen, messages + [m])
            == Unseen(seen, messages) + (if m.id in seen + IdSet(messages) then [] else [m])
  {
    assert (messages + [m])[..|messages|] == messages;
  }

  lemma {:induction false} UnseenConcat(seen: set<MessageId>, a: seq<Message>, b: seq<Message>)
    ensures Unseen(seen, a + b) == Unseen(seen, a) + Unseen(seen + IdSet(a), b)
    decreases |b|
  {
    if b == [] {
      assert a + b == a;
    } else {
      var init, m := b[..|b| - 1], b[|b| - 1];
      assert b == init + [m] && a + b == (a + init) + [m];
      UnseenConcat(seen, a, init);
      UnseenStep(seen, a + init, m);
      UnseenStep(seen + IdSet(a), init, m);
      IdsConcat(a, init);
    }
  }

  lemma IdsConcat(a: seq<Message>, b: seq<Message>)
    ensures IdSet(a + b) == IdSet(a) + IdSet(b)
  {
    forall m
      ensures m in a + b <==> m in a || m in b
    {
    }
  }

  // Collecting two batches one after the other collects both.
  lemma UnseenTwice(seen: set<MessageId>, out: seq<Message>, a: seq<Message>, b: seq<Message>)
    ensures (out + Unseen(seen, a)) + Unseen(seen + IdSet(a), b) == out + Unseen(seen, a + b)
    ensures (seen + IdSet(a)) + IdSet(b) == seen + IdSet(a + b)
  {
    hide IdSet, Unseen;
    UnseenConcat(seen, a, b);
    IdsConcat(a, b);
    assert (out + Unseen(seen, a)) + Unseen(seen + IdSet(a), b) == out + (Unseen(seen, a) + Unseen(seen + IdSet(a), b));
  }

  lemma {:induction false} NothingRepeats(messages: seq<Message>)
    requires forall i, j | 0 <= i < j < |messages| :: messages[i].id != messages[j].id
    ensures Unseen({}, messages) == messages
  {
    hide IdSet;
    if messages != [] {
      var init, m := messages[..|messages| - 1], messages[|messages| - 1];
      NothingRepeats(init);
      LastIsNew(messages);
      assert messages == init + [m];
    }
  }

  lemma LastIsNew(messages: seq<Message>)
    requires messages != [] && forall i, j | 0 <= i < j < |messages| :: messages[i].id != messages[j].id
    ensures messages[|messages| - 1].id !in IdSet(messages[..|messages| - 1])
  {
  }

  // ---- sorting ----

  predicate SortedByPosition(messages: seq<Message>) {
    forall i, j | 0 <= i < j < |messages| :: messages[i].position <= messages[j].position
  }

  lemma InsertedSorted(sorted: seq<Message>, k: nat, m: Message)
    requires SortedByPosition(sorted) && k <= |sorted|
    requires forall j | 0 <= j < k :: sorted[j].position <= m.position
    requires forall j | k <= j < |sorted| :: m.position <= sorted[j].position
    ensures SortedByPosition(sorted[..k] + [m] + sorted[k..])
  {
    var r := sorted[..k] + [m] + sorted[k..];
    forall i, j | 0 <= i < j < |r|
      ensures r[i].position <= r[j].position
    {
      var x, y := if i > k then i - 1 else i, if j > k then j - 1 else j;
      assert i != k ==> r[i] == sorted[x];
      assert j != k ==> r[j] == sorted[y];
    }
  }

  lemma InsertedMultiset(sorted: seq<Message>, k: nat, m: Message)
    requires k <= |sorted|
    ensures multiset(sorted[..k] + [m] + sorted[k..]) == multiset(sorted) + multiset{m}
  {
    assert sorted == sorted[..k] + sorted[k..];
  }

  method InsertByPosition(sorted: seq<Message>, m: Message) returns (r: seq<Message>)
    requires SortedByPosition(sorted)
    ensures SortedByPosition(r) && multiset(r) == multiset(sorted) + multiset{m}
  {
    var k := |sorted|;
    while k > 0 && sorted[k - 1].position > m.position
      invariant 0 <= k <= |sorted|
      invariant forall j | k <= j < |sorted| :: m.position <= sorted[j].position
    {
      k := k - 1;
    }
    InsertedSorted(sorted, k, m);
    InsertedMultiset(sorted, k, m);
    return sorted[..k] + [m] + sorted[k..];
  }

  // Stands for the library sort: it promises order and permutation only.
  method SortByPosition(messages: seq<Message>) returns (sorted: seq<Message>)
    ensures SortedByPosition(sorted) && multiset(sorted) == multiset(messages)
  {
    sorted := [];
    for i := 0 to |messages|
      invariant SortedByPosition(sorted) && multiset(sorted) == multiset(messages[..i])
    {
      assert messages[..i + 1] == messages[..i] + [messages[i]];
      sorted := InsertByPosition(sorted, messages[i]);
    }
    assert messages[..|messages|] == messages;
  }

  // Where positions differ, there is only one sorted order.
  lemma {:induction false} SortedUnique(a: seq<Message>, b: seq<Message>)
    requires forall i, j | 0 <= i < j < |a| :: a[i].position < a[j].position
    requires SortedByPosition(b) && multiset(a) == multiset(b)
    ensures a == b
  {
    SameLength(a, b);
    if a != [] {
      SameHead(a, b);
      WithoutHead(a);
      WithoutHead(b);
      SortedUnique(a[1..], b[1..]);
    }
  }

  lemma SameLength(a: seq<Message>, b: seq<Message>)
    requires multiset(a) == multiset(b)
    ensures |a| == |b|
  {
    assert |multiset(a)| == |a| && |multiset(b)| == |b|;
  }

  lemma SameHead(a: seq<Message>, b: seq<Message>)
    requires a != [] && b != [] && multiset(a) == multiset(b) && SortedByPosition(b)
    requires forall i, j | 0 <= i < j < |a| :: a[i].position < a[j].position
    ensures a[0] == b[0]
  {
    assert a[0] in multiset(b) && b[0] in multiset(a);
    var i :| 0 <= i < |b| && b[i] == a[0];
    var j :| 0 <= j < |a| && a[j] == b[0];
  }

  lemma WithoutHead(a: seq<Message>)
    requires a != []
    ensures multiset(a[1..]) == multiset(a) - multiset{a[0]}
    ensures a == [a[0]] + a[1..]
  {
    assert a == [a[0]] + a[1..];
  }

  // ---- the walk ----

  // The span of the log a row claims.
  ghost function SpanOf(store: Store, id: SummaryId): seq<Message>
    requires StoreOk(store) && id in store.summaries
  {
    assert RowOk(store, id);
    store.log[store.summaries[id].earliest - 1..store.summaries[id].latest]
  }

  lemma SpanStays(s: Store, t: Store, id: SummaryId)
    requires StoreOk(s) && StoreOk(t) && Extends(s, t) && id in s.summaries
    ensures id in t.summaries && t.summaries[id] == s.summaries[id] && SpanOf(t, id) == SpanOf(s, id)
  {
    assert RowOk(s, id);
  }

  // Where the first i children of a chain end.
  ghost function ChainEnd(store: Store, ids: seq<SummaryId>, e: nat, i: nat): int
    requires i <= |ids| && forall c | c in ids :: c in store.summaries
  {
    if i == 0 then e - 1 else store.summaries[ids[i - 1]].latest
  }

  lemma {:induction false} ChainEndBounds(store: Store, ids: seq<SummaryId>, depth: nat, e: nat, l: nat, i: nat)
    requires StoreOk(store) && Chain(store.summaries, ids, depth, e, l) && 1 <= e && i <= |ids|
    ensures forall c | c in ids :: c in store.summaries
    ensures e - 1 <= ChainEnd(store, ids, e, i) <= |store.log| || i == 0
    ensures i > 0 ==> e <= store.summaries[ids[i - 1]].earliest
    ensures ChainEnd(store, ids, e, |ids|) == l
    decreases i
  {
    if i > 0 {
      assert RowOk(store, ids[i - 1]);
      ChainEndBounds(store, ids, depth, e, l, i - 1);
      if i > 1 {
        assert store.summaries[ids[i - 1]].earliest == store.summaries[ids[i - 2]].latest + 1;
        assert RowOk(store, ids[i - 2]);
      }
    }
  }

  // What the first i children of a chain cover.
  ghost predicate ChainPart(store: Store, ids: seq<SummaryId>, e: nat, i: nat, part: seq<Message>) {
    && 1 <= e && i <= |ids| && (forall c | c in ids :: c in store.summaries)
    && e - 1 <= ChainEnd(store, ids, e, i) <= |store.log|
    && part == store.log[e - 1..ChainEnd(store, ids, e, i)]
  }

  lemma ChainStart(store: Store, ids: seq<SummaryId>, depth: nat, e: nat, l: nat)
    requires Chain(store.summaries, ids, depth, e, l) && 1 <= e <= |store.log|
    ensures ChainPart(store, ids, e, 0, [])
  {
  }

  // The next child takes up where the earlier ones end, also when read later.
  lemma ChainStep(store: Store, now: Store, ids: seq<SummaryId>, depth: nat, e: nat, l: nat, i: nat, part: seq<Message>)
    requires StoreOk(store) && Chain(store.summaries, ids, depth, e, l)
    requires StoreOk(now) && Extends(store, now)
    requires i < |ids| && ChainPart(store, ids, e, i, part)
    ensures ids[i] in now.summaries && now.summaries[ids[i]].depth == depth
    ensures ChainPart(store, ids, e, i + 1, part + SpanOf(now, ids[i]))
  {
    SpanStays(store, now, ids[i]);
    ChainEndBounds(store, ids, depth, e, l, i + 1);
    assert RowOk(store, ids[i]);
    if i > 0 {
      assert store.summaries[ids[i]].earliest == store.summaries[ids[i - 1]].latest + 1;
    }
    SpansAbut(store.log, e - 1, ChainEnd(store, ids, e, i), ChainEnd(store, ids, e, i + 1));
  }

  lemma ChainWhole(store: Store, ids: seq<SummaryId>, depth: nat, e: nat, l: nat, part: seq<Message>)
    requires StoreOk(store) && Chain(store.summaries, ids, depth, e, l)
    requires ChainPart(store, ids, e, |ids|, part)
    ensures e - 1 <= l <= |store.log| && part == store.log[e - 1..l]
  {
    ChainEndBounds(store, ids, depth, e, l, |ids|);
  }

  lemma RowsAreNamed(store: Store)
    requires StoreOk(store)
    ensures forall c | c in store.summaries :: store.summaries[c].id == c
  {
    forall c | c in store.summaries
      ensures store.summaries[c].id == c
    {
      assert RowOk(store, c);
    }
  }

  class Walk {
    const db: Database
    var seen: set<MessageId>
    var out: seq<Message>

    constructor (db: Database)
      ensures this.db == db && seen == {} && out == []
    {
      this.db, seen, out := db, {}, [];
    }

    ghost predicate Collected(before: set<MessageId>, had: seq<Message>, messages: seq<Message>)
      reads this
    {
      out == had + Unseen(before, messages) && seen == before + IdSet(messages)
    }

    method Collect(messages: seq<Message>)
      modifies this
      ensures Collected(old(seen), old(out), messages)
    {
      for i := 0 to |messages|
        invariant Collected(old(seen), old(out), messages[..i])
      {
        var m := messages[i];
        assert messages[..i + 1][..i] == messages[..i];
        if m.id !in seen {
          seen := seen + {m.id};
          out := out + [m];
        }
      }
      assert messages[..|messages|] == messages;
    }

    method CollectLeaf(id: SummaryId)
      requires db.Ok() && id in db.summaries && db.summaries[id].kind == SummaryKind.Leaf
      modifies this
      ensures Collected(old(seen), old(out), SpanOf(db.State(), id))
    {
      hide StoreOk;
      LeafMessages(db.State(), id);
      var messages := db.LinkedMessages(id);
      Collect(messages);
    }

    method ChildrenOf(id: SummaryId) returns (children: seq<Summary>)
      requires db.Ok() && id in db.summaries && db.summaries[id].kind == SummaryKind.Condensed
      ensures id.CondensedId? && id.depth == db.summaries[id].depth > 0
      ensures |children| == |id.children| && forall k | 0 <= k < |children| :: children[k].id == id.children[k]
      ensures 1 <= db.summaries[id].earliest <= db.summaries[id].latest <= |db.log|
      ensures Chain(db.summaries, id.children, id.depth - 1, db.summaries[id].earliest, db.summaries[id].latest)
    {
      assert RowOk(db.State(), id);
      RowsAreNamed(db.State());
      children := db.LinkedChildren(id);
      ChildListingUnique(db.State(), id, children);
    }

    // A stored summary's walk collects exactly the span its row claims.
    method Descend(id: SummaryId, ghost depth: nat) returns (r: Result<()>)
      requires db.Ok()
      requires id in db.summaries ==> db.summaries[id].depth == depth
      modifies db, this
      ensures db.Ok() && Extends(old(db.State()), db.State())
      ensures r.Ok? <==> id in old(db.summaries)
      ensures r.Ok? ==> Collected(old(seen), old(out), SpanOf(old(db.State()), id))
      decreases depth, 3
    {
      var s := db.GetSummary(id);
      if s.None? {
        return Err("engine: summary not found");
      }
      ghost var before := db.State();
      db.Interference();
      SpanStays(before, db.State(), id);
      ghost var now := db.State();
      r := Visit(id, s.value, depth);
      ExtendsTransitive(before, now, db.State());
    }

    method Visit(id: SummaryId, s: Summary, ghost depth: nat) returns (r: Result<()>)
      requires db.Ok() && id in db.summaries && db.summaries[id] == s && s.depth == depth
      modifies db, this
      ensures db.Ok() && Extends(old(db.State()), db.State())
      ensures r.Ok? && Collected(old(seen), old(out), SpanOf(old(db.State()), id))
      decreases depth, 2
    {
      if s.kind == SummaryKind.Leaf {
        CollectLeaf(id);
        r := Ok(());
      } else {
        var children := ChildrenOf(id);
        r := DescendAll(children, depth, id.children, s.earliest, s.latest);
      }
    }

    method DescendAll(children: seq<Summary>, ghost depth: nat, ghost ids: seq<SummaryId>, ghost e: nat, ghost l: nat)
      returns (r: Result<()>)
      requires db.Ok() && depth > 0 && Chain(db.summaries, ids, depth - 1, e, l)
      requires |children| == |ids| && forall k | 0 <= k < |ids| :: children[k].id == ids[k]
      requires 1 <= e <= l <= |db.log|
      modifies db, this
      ensures db.Ok() && Extends(old(db.State()), db.State())
      ensures r.Ok? && Collected(old(seen), old(out), old(db.log)[e - 1..l])
      decreases depth, 1
    {
      hide StoreOk, ItemsOk;
      ghost var start, part: seq<Message> := db.State(), [];
      ChainStart(start, ids, depth - 1, e, l);
      for i := 0 to |children|
        invariant db.Ok() && Extends(start, db.State())
        invariant ChainPart(start, ids, e, i, part) && Collected(old(seen), old(out), part)
      {
        r, part := DescendChild(children[i].id, start, ids, depth - 1, e, l, i, part, old(seen), old(out));
        if r.Err? {
          assert false; // children are never deleted
        }
      }
      ChainWhole(start, ids, depth - 1, e, l, part);
      return Ok(());
    }

    method DescendChild(id: SummaryId, ghost start: Store, ghost ids: seq<SummaryId>, ghost depth: nat, ghost e: nat,
                        ghost l: nat, ghost i: nat, ghost part: seq<Message>, ghost before: set<MessageId>,
                        ghost had: seq<Message>)
      returns (r: Result<()>, ghost part': seq<Message>)
      requires db.Ok() && Extends(start, db.State())
      requires StoreOk(start) && Chain(start.summaries, ids, depth, e, l) && i < |ids| && id == ids[i]
      requires ChainPart(start, ids, e, i, part) && Collected(before, had, part)
      modifies db, this
      ensures db.Ok() && Extends(start, db.State())
      ensures r.Ok? && ChainPart(start, ids, e, i + 1, part') && Collected(before, had, part')
      decreases depth + 1, 0
    {
      ghost var now := db.State();
      ChainStep(start, now, ids, depth, e, l, i, part);
      part' := part + SpanOf(now, id);
      UnseenTwice(before, had, part, SpanOf(now, id));
      r := Descend(id, depth);
      ExtendsTransitive(start, now, db.State());
    }
  }

  lemma Recovered(store: Store, id: SummaryId, out: seq<Message>, sorted: seq<Message>)
    requires StoreOk(store) && id in store.summaries && out == Unseen({}, SpanOf(store, id))
    requires SortedByPosition(sorted) && multiset(sorted) == multiset(out)
    ensures sorted == Expansion(store, id) == SpanOf(store, id)
    ensures |sorted| == store.summaries[id].descendants
  {
    hide Expansion, Unseen, RowOk;
    ExpansionIsSpan(store, id);
    NothingRepeats(SpanOf(store, id));
    SortedUnique(SpanOf(store, id), sorted);
  }

  // Full recovery: the verbatim messages of the summary's span, each once, in order,
  // as many as its row counts; an error exactly when there is no such summary.
  method ExpandToMessages(db: Database, id: SummaryId) returns (r: Result<seq<Message>>)
    requires db.Ok()
    modifies db
    ensures db.Ok() && Extends(old(db.State()), db.State())
    ensures r.Err? <==> id !in old(db.summaries)
    ensures r.Ok? ==>
      && r.value == Expansion(old(db.State()), id) == SpanOf(old(db.State()), id)
      && |r.value| == old(db.summaries)[id].descendants
  {
    hide StoreOk, ItemsOk, Expansion, Unseen, SortedByPosition, SpanOf, Run;
    var walk := new Walk(db);
    ghost var before := db.State();
    var done := walk.Descend(id, if id in db.summaries then db.summaries[id].depth else 0);
    if done.Err? {
      return Err(done.error);
    }
    var sorted := SortByPosition(walk.out);
    Recovered(before, id, walk.out, sorted);
    return Ok(sorted);
  }
}
