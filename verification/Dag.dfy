// One conversation's tables: the message log, the summary rows, their link
// tables, and the persisted window. Every engine query is keyed by the
// conversation or by IDs derived from it, so one conversation is the unit.
module Dag {
  import opened Core

  datatype Summary = Summary(
    id: SummaryId,
    kind: SummaryKind,
    depth: nat,
    content: string,
    tokenCount: nat,
    sourceCount: nat,
    descendants: nat,
    earliest: nat,
    latest: nat)

  // A persisted context item. OtherRef is a row whose type tag is neither of the two known ones.
  datatype Ref = MessageRef(message: MessageId) | SummaryRef(summary: SummaryId) | OtherRef(kind: string, id: string)

  datatype Store = Store(
    conversation: string,
    log: seq<Message>,
    summaries: map<SummaryId, Summary>,
    messageLinks: set<(SummaryId, MessageId)>,
    childLinks: set<(SummaryId, SummaryId)>,
    items: seq<Ref>)

  function EmptyStore(conversation: string): Store {
    Store(conversation, [], map[], {}, {}, [])
  }

  function Ids(messages: seq<Message>): (ids: seq<MessageId>)
    ensures |ids| == |messages|
    ensures forall i | 0 <= i < |ids| :: ids[i] == messages[i].id
  {
    seq(|messages|, i requires 0 <= i < |messages| => messages[i].id)
  }

  function FindMessage(log: seq<Message>, id: MessageId): Option<Message> {
    if log == [] then None
    else if log[|log| - 1].id == id then Some(log[|log| - 1])
    else FindMessage(log[..|log| - 1], id)
  }

  // ---- writes ----

  function AppendToLog(store: Store, m: Message): Store {
    store.(log := store.log + [m])
  }

  function LeafRow(id: SummaryId, content: string, tokens: nat, sources: nat, earliest: nat, latest: nat,
                   descendants: nat): Summary {
    Summary(id, Leaf, 0, content, tokens, sources, descendants, earliest, latest)
  }

  function CondensedRow(id: SummaryId, depth: nat, content: string, tokens: nat, sources: nat, earliest: nat,
                        latest: nat, descendants: nat): Summary {
    Summary(id, Condensed, depth, content, tokens, sources, descendants, earliest, latest)
  }

  // Insert-if-absent: a row already stored under the derived ID wins, whatever its text.
  function PutLeaf(store: Store, messages: seq<MessageId>, content: string, tokens: nat, earliest: nat, latest: nat,
                   descendants: nat): Store {
    var id := LeafId(store.conversation, messages);
    if id in store.summaries then store
    else store.(
      summaries := store.summaries[id := LeafRow(id, content, tokens, |messages|, earliest, latest, descendants)],
      messageLinks := store.messageLinks + (set m | m in messages :: (id, m)))
  }

  function PutCondensed(store: Store, depth: nat, children: seq<SummaryId>, content: string, tokens: nat,
                        earliest: nat, latest: nat, descendants: nat): Store {
    var id := CondensedId(store.conversation, depth, children);
    if id in store.summaries then store
    else store.(
      summaries :=
        store.summaries[id := CondensedRow(id, depth, content, tokens, |children|, earliest, latest, descendants)],
      childLinks := store.childLinks + (set c | c in children :: (id, c)))
  }

  // What a new row says.
  predicate Says(s: Summary, content: string, tokens: nat, sources: nat) {
    s.content == content && s.tokenCount == tokens && s.sourceCount == sources
  }

  // ---- invariants of the rows ----

  predicate LogOk(log: seq<Message>) {
    && (forall i | 0 <= i < |log| :: log[i].position == i + 1)
    && (forall i, j | 0 <= i < j < |log| :: log[i].id != log[j].id)
  }

  // Adjacent children cover adjacent spans, one level down.
  predicate Chain(summaries: map<SummaryId, Summary>, children: seq<SummaryId>, depth: nat, earliest: nat,
                  latest: nat)
  {
    && |children| > 0
    && (forall k | 0 <= k < |children| :: children[k] in summaries && summaries[children[k]].depth == depth)
    && summaries[children[0]].earliest == earliest
    && summaries[children[|children| - 1]].latest == latest
    && (forall k | 0 < k < |children| :: summaries[children[k]].earliest == summaries[children[k - 1]].latest + 1)
  }

  predicate SpanOk(log: seq<Message>, s: Summary) {
    && 1 <= s.earliest <= s.latest <= |log|
    && s.descendants == s.latest - s.earliest + 1
  }

  ghost predicate RowOk(store: Store, id: SummaryId)
    requires id in store.summaries
  {
    var s := store.summaries[id];
    && s.id == id
    && SpanOk(store.log, s)
    && match id
       case LeafId(_, messages) =>
         && s.kind == Leaf && s.depth == 0
         && messages == Ids(store.log[s.earliest - 1..s.latest])
         && (forall m :: (id, m) in store.messageLinks <==> m in messages)
       case CondensedId(_, depth, children) =>
         && s.kind == Condensed && s.depth == depth && depth > 0
         && Chain(store.summaries, children, depth - 1, s.earliest, s.latest)
         && (forall c :: (id, c) in store.childLinks <==> c in children)
  }

  ghost predicate StoreOk(store: Store) {
    && LogOk(store.log)
    && (forall id {:trigger RowOk(store, id)} | id in store.summaries :: RowOk(store, id))
    && (forall id, m | (id, m) in store.messageLinks :: id in store.summaries)
    && (forall id, c | (id, c) in store.childLinks :: id in store.summaries)
  }

  // What other processes may do to the tables: append messages, add rows, and
  // replace the window. Nothing stored is ever rewritten.
  ghost predicate Extends(s: Store, t: Store) {
    && s.conversation == t.conversation
    && s.log <= t.log
    && (forall id | id in s.summaries :: id in t.summaries && t.summaries[id] == s.summaries[id])
  }

  lemma ExtendsTransitive(s: Store, t: Store, u: Store)
    requires Extends(s, t) && Extends(t, u)
    ensures Extends(s, u)
  {
  }

  // ---- the writes keep the row invariants ----

  lemma {:induction false} FoundMessage(log: seq<Message>, i: nat)
    requires LogOk(log) && i < |log|
    ensures FindMessage(log, log[i].id) == Some(log[i])
  {
    if i < |log| - 1 {
      FoundMessage(log[..|log| - 1], i);
    }
  }

  lemma AppendKeepsStore(store: Store, m: Message)
    requires StoreOk(store)
    requires m.position == |store.log| + 1
    requires m.id !in Ids(store.log)
    ensures StoreOk(AppendToLog(store, m)) && Extends(store, AppendToLog(store, m))
  {
    var t := AppendToLog(store, m);
    forall id | id in t.summaries
      ensures RowOk(t, id)
    {
      assert RowOk(store, id);
      var s := store.summaries[id];
      assert t.log[s.earliest - 1..s.latest] == store.log[s.earliest - 1..s.latest];
    }
    assert forall i | 0 <= i < |store.log| :: Ids(store.log)[i] == store.log[i].id;
  }

  // A nonempty run of log IDs determines where the run starts.
  lemma SpanOfIds(log: seq<Message>, e: nat, l: nat, e': nat, l': nat)
    requires LogOk(log)
    requires 1 <= e <= l <= |log| && 1 <= e' <= l' <= |log|
    requires Ids(log[e - 1..l]) == Ids(log[e' - 1..l'])
    ensures e == e' && l == l'
  {
    assert Ids(log[e - 1..l])[0] == log[e - 1].id;
    assert Ids(log[e' - 1..l'])[0] == log[e' - 1].id;
  }

  lemma PutLeafKeepsStore(store: Store, content: string, tokens: nat, earliest: nat, latest: nat)
    requires StoreOk(store)
    requires 1 <= earliest <= latest <= |store.log|
    ensures
      var messages := Ids(store.log[earliest - 1..latest]);
      var id := LeafId(store.conversation, messages);
      var t := PutLeaf(store, messages, content, tokens, earliest, latest, latest - earliest + 1);
      && StoreOk(t) && Extends(store, t)
      && id in t.summaries
      && t.summaries[id].earliest == earliest && t.summaries[id].latest == latest && t.summaries[id].depth == 0
      && (id in store.summaries ==> t == store)
      && (id !in store.summaries ==> Says(t.summaries[id], content, tokens, |messages|))
  {
    var messages := Ids(store.log[earliest - 1..latest]);
    var id := LeafId(store.conversation, messages);
    var t := PutLeaf(store, messages, content, tokens, earliest, latest, latest - earliest + 1);
    if id in store.summaries {
      assert RowOk(store, id);
      var s := store.summaries[id];
      SpanOfIds(store.log, earliest, latest, s.earliest, s.latest);
    } else {
      forall other | other in t.summaries
        ensures RowOk(t, other)
      {
        if other != id {
          RowSurvives(store, t, other);
        }
      }
    }
  }

  // A row stays valid when rows are added beside it and its own links are untouched.
  lemma RowSurvives(store: Store, t: Store, id: SummaryId)
    requires id in store.summaries && RowOk(store, id)
    requires Extends(store, t) && store.log == t.log
    requires forall m :: (id, m) in store.messageLinks <==> (id, m) in t.messageLinks
    requires forall c :: (id, c) in store.childLinks <==> (id, c) in t.childLinks
    ensures RowOk(t, id)
  {
    assert t.summaries[id] == store.summaries[id];
  }

  lemma PutCondensedKeepsStore(store: Store, depth: nat, children: seq<SummaryId>, content: string, tokens: nat,
                               earliest: nat, latest: nat)
    requires StoreOk(store) && depth > 0
    requires 1 <= earliest <= latest <= |store.log|
    requires Chain(store.summaries, children, depth - 1, earliest, latest)
    ensures
      var id := CondensedId(store.conversation, depth, children);
      var t := PutCondensed(store, depth, children, content, tokens, earliest, latest, latest - earliest + 1);
      && StoreOk(t) && Extends(store, t)
      && id in t.summaries
      && t.summaries[id].earliest == earliest && t.summaries[id].latest == latest && t.summaries[id].depth == depth
      && (id in store.summaries ==> t == store)
      && (id !in store.summaries ==> Says(t.summaries[id], content, tokens, |children|))
  {
    var id := CondensedId(store.conversation, depth, children);
    var t := PutCondensed(store, depth, children, content, tokens, earliest, latest, latest - earliest + 1);
    if id in store.summaries {
      assert RowOk(store, id);
    } else {
      forall k | 0 <= k < |children|
        ensures t.summaries[children[k]] == store.summaries[children[k]]
      {
        assert children[k] in store.summaries && children[k] != id;
      }
      assert Chain(t.summaries, children, depth - 1, earliest, latest);
      assert RowOk(t, id);
      forall other | other in t.summaries && other != id
        ensures RowOk(t, other)
      {
        RowSurvives(store, t, other);
      }
    }
  }

  // The descendant counts of a chain's rows add up to the length of its span.
  function SumDescendants(summaries: map<SummaryId, Summary>, children: seq<SummaryId>): nat
    requires forall c | c in children :: c in summaries
  {
    if children == [] then 0
    else SumDescendants(summaries, children[..|children| - 1]) + summaries[children[|children| - 1]].descendants
  }

  lemma {:induction false} ChainDescendants(store: Store, children: seq<SummaryId>, depth: nat, earliest: nat,
                                            latest: nat)
    requires StoreOk(store) && Chain(store.summaries, children, depth, earliest, latest)
    ensures forall c | c in children :: c in store.summaries
    ensures earliest <= latest
    ensures SumDescendants(store.summaries, children) == latest - earliest + 1
  {
    var last := |children| - 1;
    assert RowOk(store, children[last]);
    if last == 0 {
      assert children[..0] == [];
    } else {
      ChainDescendants(store, children[..last], depth, earliest, store.summaries[children[last - 1]].latest);
    }
  }
}
