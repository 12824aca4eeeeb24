// Rebuilding a window: the persisted items, each loaded through its reference, and
// then every message after the last position they cover.
module Rebuild {
  import opened Core
  import opened Dag
  import opened Window

  function ItemOf(store: Store, ref: Ref): Option<WindowItem> {
    match ref
    case MessageRef(id) =>
      var m := FindMessage(store.log, id);
      if m.Some? then Some(MessageItem(m.value)) else None
    case SummaryRef(id) =>
      if id in store.summaries then Some(SummaryItem(store.summaries[id])) else None
    case OtherRef(_, _) => None
  }

  // None stands for a dangling reference or an unknown item type.
  function ItemsOf(store: Store, refs: seq<Ref>): Option<seq<WindowItem>> {
    if refs == [] then Some([])
    else
      var init := ItemsOf(store, refs[..|refs| - 1]);
      var last := ItemOf(store, refs[|refs| - 1]);
      if init.Some? && last.Some? then Some(init.value + [last.value]) else None
  }

  // The highest position among the items read, 0 when there is none.
  function LastPosition(w: seq<WindowItem>): nat {
    if w == [] then 0 else Max(LastPosition(w[..|w| - 1]), w[|w| - 1].latest)
  }

  function ListMessages(log: seq<Message>, after: nat): seq<Message> {
    if log == [] then []
    else
      var m := log[|log| - 1];
      ListMessages(log[..|log| - 1], after) + (if m.position > after then [m] else [])
  }

  function Extended(store: Store, w: seq<WindowItem>): seq<WindowItem> {
    w + MessageItems(ListMessages(store.log, LastPosition(w)))
  }

  lemma {:induction false} LastIsHorizon(w: seq<WindowItem>)
    requires Tiles(w)
    ensures LastPosition(w) == Horizon(w)
  {
    if |w| > 0 {
      LastIsHorizon(w[..|w| - 1]);
      if |w| > 1 {
        assert w[|w| - 1].earliest == w[|w| - 2].latest + 1;
      }
    }
  }

  lemma {:induction false} ListedAfter(log: seq<Message>, n: nat, after: nat)
    requires LogOk(log) && n <= |log|
    ensures ListMessages(log[..n], after) == if after <= n then log[after..n] else []
  {
    if n > 0 {
      assert log[..n][..n - 1] == log[..n - 1];
      ListedAfter(log, n - 1, after);
    }
  }

  lemma ExtendedIs(store: Store, w: seq<WindowItem>)
    requires LogOk(store.log) && WindowOk(store, w)
    ensures Extended(store, w) == w + MessageItems(store.log[Horizon(w)..])
  {
    LastIsHorizon(w);
    ListedAfter(store.log, |store.log|, Horizon(w));
    assert store.log[..|store.log|] == store.log;
  }

  // A window survives being written as references and read back.
  lemma {:induction false} ItemsRoundTrip(store: Store, w: seq<WindowItem>)
    requires LogOk(store.log)
    requires forall k | 0 <= k < |w| :: ItemOk(store, w[k])
    ensures ItemsOf(store, Refs(w)) == Some(w)
    decreases |w|
  {
    hide LogOk, FindMessage;
    if w != [] {
      var last := w[|w| - 1];
      assert Refs(w)[..|w| - 1] == Refs(w[..|w| - 1]);
      ItemsRoundTrip(store, w[..|w| - 1]);
      assert ItemOk(store, last);
      if last.ref.MessageRef? {
        FoundMessage(store.log, last.earliest - 1);
      }
      assert w[..|w| - 1] + [last] == w;
    }
  }

  // Reading later messages makes the window reach the end of the log.
  lemma ExtendedOk(store: Store, w: seq<WindowItem>)
    requires LogOk(store.log) && WindowOk(store, w)
    ensures WindowOk(store, Extended(store, w)) && Horizon(Extended(store, w)) == |store.log|
  {
    ExtendedIs(store, w);
    AppendedOk(store, w);
  }

  lemma AppendedOk(store: Store, w: seq<WindowItem>)
    requires LogOk(store.log) && WindowOk(store, w)
    ensures
      var u := w + MessageItems(store.log[Horizon(w)..]);
      WindowOk(store, u) && Horizon(u) == |store.log|
  {
    var later := MessageItems(store.log[Horizon(w)..]);
    LaterItems(store, Horizon(w));
    RawItemsTile(w, later);
    forall k | 0 <= k < |w + later|
      ensures ItemOk(store, (w + later)[k])
    {
      if k < |w| {
        assert ItemOk(store, w[k]);
      } else {
        assert ItemOk(store, later[k - |w|]);
      }
    }
  }

  lemma LaterItems(store: Store, n: nat)
    requires LogOk(store.log) && n <= |store.log|
    ensures
      var later := MessageItems(store.log[n..]);
      forall k | 0 <= k < |later| :: ItemOk(store, later[k]) && later[k].earliest == later[k].latest == n + k + 1
  {
    var later := MessageItems(store.log[n..]);
    forall k | 0 <= k < |later|
      ensures ItemOk(store, later[k]) && later[k].earliest == later[k].latest == n + k + 1
    {
      assert later[k] == MessageItem(store.log[n + k]);
    }
  }

  // Single messages counting on from a window's end tile with it.
  lemma RawItemsTile(w: seq<WindowItem>, later: seq<WindowItem>)
    requires Tiles(w) && forall k | 0 <= k < |later| :: later[k].earliest == later[k].latest == Horizon(w) + k + 1
    ensures Tiles(w + later) && Horizon(w + later) == Horizon(w) + |later|
  {
    var u := w + later;
    forall k | 0 < k < |u|
      ensures u[k].earliest == u[k - 1].latest + 1
    {
      if k < |w| {
        assert w[k].earliest == w[k - 1].latest + 1;
      } else if k > |w| {
        assert u[k] == later[k - |w|] && u[k - 1] == later[k - |w| - 1];
      }
    }
  }

  // Items read back name the references they were read from.
  lemma {:induction false} ItemsOfRefs(store: Store, refs: seq<Ref>)
    requires StoreOk(store) && ItemsOf(store, refs).Some?
    ensures Refs(ItemsOf(store, refs).value) == refs
    decreases |refs|
  {
    if refs != [] {
      var n := |refs| - 1;
      var w := ItemsOf(store, refs).value;
      var init := ItemsOf(store, refs[..n]).value;
      ItemsOfRefs(store, refs[..n]);
      var last := ItemOf(store, refs[n]).value;
      assert last.ref == refs[n] by {
        if refs[n].MessageRef? {
          FoundId(store.log, refs[n].message);
        } else {
          assert RowOk(store, refs[n].summary);
        }
      }
      assert Refs(w) == Refs(init) + [last.ref];
    }
  }

  lemma {:induction false} FoundId(log: seq<Message>, id: MessageId)
    ensures FindMessage(log, id).Some? ==> FindMessage(log, id).value.id == id
  {
    if log != [] {
      FoundId(log[..|log| - 1], id);
    }
  }
}
