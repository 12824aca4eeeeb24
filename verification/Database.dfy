// The mutable store behind a pass. Every method is one transaction, proved
// against the table functions; between transactions other processes may act.
// A ghost run of the protocol accompanies the tables.
module Sqlite {
  import opened Core
  import opened Dag
  import opened Window
  import opened Expand
  import opened Rebuild
  import opened Protocol
  import opened History

  // A pass in the run: how far the run had come when it was called, its own actions so
  // far and where it stands.
  datatype Seat = Seat(pid: nat, since: seq<Action>, own: seq<Action>, pass: Option<Pass>) {
    function Took(a: Action, after: Option<Pass>): Seat {
      this.(own := own + [a], pass := after)
    }
  }

  // The full-text row of a summary.
  datatype SearchRow = SearchRow(content: string, summary: SummaryId, depth: nat)

  class Database {
    const conversation: string
    var log: seq<Message>
    var summaries: map<SummaryId, Summary>
    var messageLinks: set<(SummaryId, MessageId)>
    var childLinks: set<(SummaryId, SummaryId)>
    var items: seq<Ref>
    var index: seq<SearchRow>

    // The run so far, by all processes, and the state it has reached.
    ghost var history: seq<Action>
    ghost var system: Protocol.State

    ghost function State(): Store
      reads this
    {
      Store(conversation, log, summaries, messageLinks, childLinks, items)
    }

    ghost predicate Recorded()
      reads this
    {
      Run(Initial(conversation), history, system)
    }

    // The tables meet their invariant and are what the run has led to.
    ghost predicate Ok()
      reads this
    {
      StoreOk(State()) && ItemsOk(State()) && Recorded() && system.store == State()
    }

    // A pass stands where its seat says.
    ghost predicate At(seat: Seat)
      reads this
    {
      seat.since <= history && Own(history, seat.pid) == seat.own && Standing(system, seat.pid) == seat.pass
    }

    // The store meets its invariant and the window mirrors it.
    ghost predicate Ready(w: seq<WindowItem>)
      reads this
    {
      Ok() && WindowOk(State(), w)
    }

    // The same, after whatever has happened since `before`.
    ghost predicate Kept(before: Store, w: seq<WindowItem>)
      reads this
    {
      Ready(w) && Extends(before, State())
    }

    constructor (conversation: string)
      ensures State() == EmptyStore(conversation) && Ok() && history == []
    {
      this.conversation := conversation;
      log, summaries, messageLinks, childLinks, items, index := [], map[], {}, {}, [], [];
      history, system := [], Initial(conversation);
    }

    // The pass at `seat` takes the next step of the run; the tables have just taken it.
    ghost method Record(seat: Seat, a: Action)
      requires Recorded() && Enabled(system, a) && Do(system, a).store == State()
      requires StoreOk(State()) && ItemsOk(State()) && At(seat) && Owned(a, seat.pid)
      modifies this`history, this`system
      ensures Ok() && history == old(history) + [a] && system == Do(old(system), a)
      ensures At(seat.Took(a, Standing(Do(old(system), a), seat.pid)))
    {
      RunStep(Initial(conversation), history, system, a);
      OwnStep(history, a, seat.pid);
      history, system := history + [a], Do(system, a);
    }

    // Whatever other processes do between two transactions of the pass at `seat`.
    // Callers see only the contract, which every run of other processes meets
    // (History.OthersLeavePass).
    method OthersAct(ghost seat: Seat)
      requires Ok() && At(seat)
      modifies this
      ensures Ok() && Extends(old(State()), State()) && At(seat)
    {
    }

    // The same for a process that only reads.
    method Interference()
      requires Ok()
      modifies this
      ensures Ok() && Extends(old(State()), State())
    {
      OthersAct(Seat(0, history, Own(history, 0), Standing(system, 0)));
    }

    method GetMessage(id: MessageId) returns (m: Option<Message>)
      ensures m == FindMessage(log, id)
    {
      var i := |log|;
      assert log[..i] == log;
      while i > 0
        invariant 0 <= i <= |log|
        invariant FindMessage(log, id) == FindMessage(log[..i], id)
      {
        assert log[..i][..i - 1] == log[..i - 1];
        i := i - 1;
        if log[i].id == id {
          return Some(log[i]);
        }
      }
      return None;
    }

    method GetSummary(id: SummaryId) returns (s: Option<Summary>)
      ensures s == if id in summaries then Some(summaries[id]) else None
    {
      s := if id in summaries then Some(summaries[id]) else None;
    }

    // Messages with a position beyond `after`, in log order.
    method MessagesAfter(after: nat) returns (rows: seq<Message>)
      requires Ok()
      ensures rows == ListMessages(log, after)
      ensures after <= |log| ==> rows == log[after..]
    {
      rows := [];
      for i := 0 to |log|
        invariant rows == ListMessages(log[..i], after)
      {
        assert log[..i + 1][..i] == log[..i];
        if log[i].position > after {
          rows := rows + [log[i]];
        }
      }
      assert log[..|log|] == log;
      ListedAfter(log, |log|, after);
    }

    method CreateLeafSummary(messages: seq<MessageId>, content: string, tokens: nat, earliest: nat, latest: nat,
                             descendants: nat)
      returns (sum: Summary)
      modifies this`summaries, this`messageLinks, this`index
      ensures State() == PutLeaf(old(State()), messages, content, tokens, earliest, latest, descendants)
      ensures LeafId(conversation, messages) in summaries && sum == summaries[LeafId(conversation, messages)]
      ensures LeafId(conversation, messages) in old(summaries) ==> State() == old(State())
      ensures LeafId(conversation, messages) !in old(summaries) ==>
        && sum.id == LeafId(conversation, messages) && sum.kind == SummaryKind.Leaf && sum.depth == 0
        && Says(sum, content, tokens, |messages|)
        && sum.earliest == earliest && sum.latest == latest && sum.descendants == descendants
        && (forall id | id in summaries && id != sum.id :: id in old(summaries) && summaries[id] == old(summaries)[id])
        && (forall m :: (sum.id, m) in messageLinks <==> (sum.id, m) in old(messageLinks) || m in messages)
      ensures index == if LeafId(conversation, messages) in old(summaries) then old(index)
                       else old(index) + [SearchRow(content, LeafId(conversation, messages), 0)]
    {
      var id := LeafId(conversation, messages);
      if id in summaries {
        return summaries[id];
      }
      sum := LeafRow(id, content, tokens, |messages|, earliest, latest, descendants);
      summaries := summaries[id := sum];
      index := index + [SearchRow(content, id, sum.depth)];
      for i := 0 to |messages|
        invariant summaries == old(summaries)[id := sum] && index == old(index) + [SearchRow(content, id, sum.depth)]
        invariant messageLinks == old(messageLinks) + (set m | m in messages[..i] :: (id, m))
      {
        assert forall m :: m in messages[..i + 1] <==> m in messages[..i] || m == messages[i];
        messageLinks := messageLinks + {(id, messages[i])};
      }
      assert messages[..|messages|] == messages;
    }

    method CreateCondensedSummary(depth: nat, children: seq<SummaryId>, content: string, tokens: nat, earliest: nat,
                                  latest: nat, descendants: nat)
      returns (sum: Summary)
      modifies this`summaries, this`childLinks, this`index
      ensures State() == PutCondensed(old(State()), depth, children, content, tokens, earliest, latest, descendants)
      ensures CondensedId(conversation, depth, children) in summaries
              && sum == summaries[CondensedId(conversation, depth, children)]
      ensures CondensedId(conversation, depth, children) in old(summaries) ==> State() == old(State())
      ensures CondensedId(conversation, depth, children) !in old(summaries) ==>
        && sum.id == CondensedId(conversation, depth, children) && sum.kind == SummaryKind.Condensed
        && sum.depth == depth && Says(sum, content, tokens, |children|)
        && sum.earliest == earliest && sum.latest == latest && sum.descendants == descendants
        && (forall id | id in summaries && id != sum.id :: id in old(summaries) && summaries[id] == old(summaries)[id])
        && (forall c :: (sum.id, c) in childLinks <==> (sum.id, c) in old(childLinks) || c in children)
      ensures index == if CondensedId(conversation, depth, children) in old(summaries) then old(index)
                       else old(index) + [SearchRow(content, CondensedId(conversation, depth, children), depth)]
    {
      var id := CondensedId(conversation, depth, children);
      if id in summaries {
        return summaries[id];
      }
      sum := CondensedRow(id, depth, content, tokens, |children|, earliest, latest, descendants);
      summaries := summaries[id := sum];
      index := index + [SearchRow(content, id, sum.depth)];
      for i := 0 to |children|
        invariant summaries == old(summaries)[id := sum] && index == old(index) + [SearchRow(content, id, sum.depth)]
        invariant childLinks == old(childLinks) + (set c | c in children[..i] :: (id, c))
      {
        assert forall c :: c in children[..i + 1] <==> c in children[..i] || c == children[i];
        childLinks := childLinks + {(id, children[i])};
      }
      assert children[..|children|] == children;
    }

    method ReplaceContextItems(refs: seq<Ref>)
      modifies this`items
      ensures items == refs
    {
      items := [];
      for i := 0 to |refs|
        invariant items == refs[..i]
      {
        items := items + [refs[i]];
      }
    }

    // The rows linked to a leaf, in log order.
    method LinkedMessages(id: SummaryId) returns (rows: seq<Message>)
      ensures rows == SummaryMessages(log, messageLinks, id)
    {
      rows := [];
      for i := 0 to |log|
        invariant rows == SummaryMessages(log[..i], messageLinks, id)
      {
        assert log[..i + 1][..i] == log[..i];
        if (id, log[i].id) in messageLinks {
          rows := rows + [log[i]];
        }
      }
      assert log[..|log|] == log;
    }

    // The rows linked to a condensed summary, by earliest position.
    method LinkedChildren(id: SummaryId) returns (rows: seq<Summary>)
      requires forall c | c in summaries :: summaries[c].id == c
      ensures IsChildListing(State(), id, rows)
    {
      rows := [];
      var rest := set c | c in summaries && (id, c) in childLinks;
      while rest != {}
        invariant forall c | c in rest :: c in summaries && (id, c) in childLinks
        invariant forall i | 0 <= i < |rows| :: rows[i].id in summaries && summaries[rows[i].id] == rows[i]
        invariant forall i | 0 <= i < |rows| :: (id, rows[i].id) in childLinks && rows[i].id !in rest
        invariant forall c | c in summaries && (id, c) in childLinks :: c in rest || summaries[c] in rows
        invariant forall i, j | 0 <= i < j < |rows| :: rows[i] != rows[j] && rows[i].earliest <= rows[j].earliest
        invariant forall i, c | 0 <= i < |rows| && c in rest :: rows[i].earliest <= summaries[c].earliest
        decreases |rest|
      {
        var first := EarliestOf(rest);
        rows := rows + [summaries[first]];
        rest := rest - {first};
      }
    }

    method EarliestOf(ids: set<SummaryId>) returns (first: SummaryId)
      requires ids != {} && forall c | c in ids :: c in summaries
      ensures first in ids && forall c | c in ids :: summaries[first].earliest <= summaries[c].earliest
    {
      first :| first in ids;
      var rest := ids - {first};
      while rest != {}
        invariant rest <= ids && first in ids
        invariant forall c | c in ids :: c in rest || summaries[first].earliest <= summaries[c].earliest
        decreases |rest|
      {
        var c :| c in rest;
        if summaries[c].earliest < summaries[first].earliest {
          first := c;
        }
        rest := rest - {c};
      }
    }
  }
}
