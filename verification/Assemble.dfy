// The assembled view of a conversation, and why its coverage report is always clean.
module Assemble {
  import opened Core
  import opened Tokens
  import opened Dag
  import opened Window
  import opened Rebuild
  import opened History
  import opened Sqlite
  import opened Compact
  import opened Coverage

  // What a shown item owes to the window item it stands for.
  predicate Mirrors(shown: RenderedItem, it: WindowItem) {
    && shown.ref == it.ref && shown.tokens == it.tokens && shown.depth == it.depth
    && shown.earliest == it.earliest && shown.latest == it.latest
    && shown.isSummary == it.ref.SummaryRef?
    && shown.role == (if it.ref.SummaryRef? then User else it.role)
    && shown.represented == shown.latest - shown.earliest + 1
    && shown.renderedTokens == CountSpec(shown.content)
  }

  // What a shown item says: the message's content, or the summary as it is rendered.
  predicate Tells(store: Store, render: Summary -> string, offloaded: string -> bool, shown: RenderedItem,
                  it: WindowItem)
  {
    match it.ref
    case MessageRef(_) =>
      && 1 <= it.earliest <= |store.log| && shown.content == store.log[it.earliest - 1].content
      && shown.hasOffload == offloaded(shown.content)
    case SummaryRef(id) =>
      && id in store.summaries && shown.content == render(store.summaries[id])
      && shown.hasOffload == offloaded(shown.content)
    case OtherRef(_, _) => false
  }

  // Rows never change, so what was shown stays true.
  lemma TellsKept(s: Store, t: Store, render: Summary -> string, offloaded: string -> bool, shown: RenderedItem,
                  it: WindowItem)
    requires Tells(s, render, offloaded, shown, it) && Extends(s, t)
    ensures Tells(t, render, offloaded, shown, it)
  {
  }

  ghost predicate ShownSoFar(store: Store, render: Summary -> string, offloaded: string -> bool,
                             items: seq<RenderedItem>, w: seq<WindowItem>)
  {
    && |items| <= |w|
    && (forall k | 0 <= k < |items| :: Mirrors(items[k], w[k]))
    && (forall k | 0 <= k < |items| :: Tells(store, render, offloaded, items[k], w[k]))
  }

  lemma ShownKept(s: Store, t: Store, render: Summary -> string, offloaded: string -> bool, items: seq<RenderedItem>,
                  w: seq<WindowItem>)
    requires ShownSoFar(s, render, offloaded, items, w) && Extends(s, t)
    ensures ShownSoFar(t, render, offloaded, items, w)
  {
    forall k | 0 <= k < |items|
      ensures Tells(t, render, offloaded, items[k], w[k])
    {
      TellsKept(s, t, render, offloaded, items[k], w[k]);
    }
  }

  // `render` wraps a summary as a pseudo-message, `offloaded` finds an offload marker in a text.
  method AssembleItem(c: Compactor, render: Summary -> string, offloaded: string -> bool, it: WindowItem)
    returns (shown: RenderedItem)
    requires c.db.Ok() && ItemOk(c.db.State(), it)
    ensures Mirrors(shown, it) && Tells(c.db.State(), render, offloaded, shown, it)
  {
    if it.ref.MessageRef? {
      var m := c.LoadMessage(it);
      var tokens := Count(m.content);
      shown := RenderedItem(MessageRef(m.id), m.role, m.content, m.tokenCount, tokens, 0, m.position, m.position, 1,
                            false, offloaded(m.content));
    } else {
      var s := c.LoadSummary(it);
      assert RowOk(c.db.State(), it.ref.summary);
      var text := render(s);
      var tokens := Count(text);
      shown := RenderedItem(SummaryRef(s.id), User, text, s.tokenCount, tokens, s.depth, s.earliest, s.latest,
                            s.descendants,
                            true, offloaded(text));
    }
  }

  // While other processes act, the view is of the items persisted when it was asked for
  // and the messages logged after them, up to some moment since; it covers every message
  // there was and perhaps newer ones, each exactly once, and shows what is stored.
  method AssembleWindow(c: Compactor, render: Summary -> string, offloaded: string -> bool)
    returns (r: Result<seq<RenderedItem>>, ghost w: seq<WindowItem>)
    requires c.db.Ok()
    modifies c.db
    ensures c.db.Ok() && Extends(old(c.db.State()), c.db.State())
    ensures r.Ok? && WindowOk(c.db.State(), w) && |old(c.db.log)| <= Horizon(w)
    ensures
      var items := ItemsOf(old(c.db.State()), old(c.db.items)).value;
      Horizon(items) <= Horizon(w) <= |c.db.log| && w == items + MessageItems(c.db.log[Horizon(items)..Horizon(w)])
    ensures |r.value| == |w| && ShownSoFar(c.db.State(), render, offloaded, r.value, w)
    ensures Gaps(r.value) == [] && Overlaps(r.value) == []
    ensures Total(r.value, Represented()) == Horizon(w) && Positions(r.value) == Interval(1, Horizon(w))
  {
    hide StoreOk, WindowOk, ItemsOf, Extended, MessageItems, Gaps, Overlaps, Total, Positions, Interval, ShownSoFar;
    var built := c.BuildWindow(Seat(0, c.db.history, Own(c.db.history, 0), Standing(c.db.system, 0)), None);
    w := built.value;
    ghost var start := c.db.State();
    var items := AssembleItems(c, render, offloaded, built.value);
    ExtendsTransitive(old(c.db.State()), start, c.db.State());
    NewerMessages(old(c.db.State()), start, c.db.State(), ItemsOf(old(c.db.State()), old(c.db.items)).value, w);
    ShownIsComplete(c.db.State(), render, offloaded, items, w);
    return Ok(items), w;
  }

  method AssembleItems(c: Compactor, render: Summary -> string, offloaded: string -> bool, w: seq<WindowItem>)
    returns (items: seq<RenderedItem>)
    requires c.db.Ready(w)
    modifies c.db
    ensures c.db.Kept(old(c.db.State()), w)
    ensures |items| == |w| && ShownSoFar(c.db.State(), render, offloaded, items, w)
  {
    hide StoreOk, WindowOk, Mirrors, Tells;
    items := [];
    for i := 0 to |w|
      invariant c.db.Kept(old(c.db.State()), w)
      invariant |items| == i && ShownSoFar(c.db.State(), render, offloaded, items, w)
    {
      ghost var now := c.db.State();
      c.db.Interference();
      WindowOkExtends(now, c.db.State(), w);
      ShownKept(now, c.db.State(), render, offloaded, items, w);
      ExtendsTransitive(old(c.db.State()), now, c.db.State());
      assert ItemOk(c.db.State(), w[i]);
      var shown := AssembleItem(c, render, offloaded, w[i]);
      items := items + [shown];
    }
  }

  // A window read at some moment is the listed items and the messages up to that moment.
  lemma NewerMessages(s: Store, start: Store, t: Store, items: seq<WindowItem>, w: seq<WindowItem>)
    requires StoreOk(start) && WindowOk(s, items) && Extends(s, start) && Extends(start, t)
    requires w == Extended(start, items) && Horizon(w) == |start.log|
    ensures Horizon(items) <= Horizon(w) <= |t.log|
    ensures w == items + MessageItems(t.log[Horizon(items)..Horizon(w)])
  {
    hide RowOk, ItemOk;
    WindowOkExtends(s, start, items);
    ExtendedIs(start, items);
    assert start.log[Horizon(items)..] == t.log[Horizon(items)..Horizon(w)];
  }

  lemma ShownIsComplete(store: Store, render: Summary -> string, offloaded: string -> bool, items: seq<RenderedItem>,
                        w: seq<WindowItem>)
    requires WindowOk(store, w) && |items| == |w| && ShownSoFar(store, render, offloaded, items, w)
    ensures Gaps(items) == [] && Overlaps(items) == []
    ensures Total(items, Represented()) == Horizon(w) && Positions(items) == Interval(1, Horizon(w))
  {
    hide Gaps, Overlaps, Total, Positions, Interval, Tells, Mirrors, ItemOk;
    MirrorsAreComplete(items, w);
  }

  // The window's own invariant makes the report clean.
  lemma MirrorsAreComplete(items: seq<RenderedItem>, w: seq<WindowItem>)
    requires Tiles(w) && |items| == |w| && forall k | 0 <= k < |w| :: Mirrors(items[k], w[k])
    ensures Gaps(items) == [] && Overlaps(items) == []
    ensures Total(items, Represented()) == Horizon(w) && Positions(items) == Interval(1, Horizon(w))
  {
    forall i | 0 < i < |items|
      ensures items[i].earliest == items[i - 1].latest + 1
    {
      assert w[i].earliest == w[i - 1].latest + 1;
    }
    CompleteIsAbutting(items);
    if items != [] {
      AbuttingPositions(items);
      AbuttingTotal(items);
    }
  }

  lemma {:induction false} AbuttingTotal(items: seq<RenderedItem>)
    requires items != [] && Abutting(items) && WellFormed(items)
    requires forall k | 0 <= k < |items| :: items[k].represented == items[k].latest - items[k].earliest + 1
    ensures Total(items, Represented()) == items[|items| - 1].latest - items[0].earliest + 1
  {
    var n := |items| - 1;
    if n > 0 {
      assert items[n].earliest == items[n - 1].latest + 1;
      AbuttingTotal(items[..n]);
    } else {
      assert items[..0] == [];
    }
  }
}
