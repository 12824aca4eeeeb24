// The fresh tail across every interleaving of passes that share one tail policy: every
// window keeps the log's tail raw, so the engine and recall protect the same messages.
module TailProtocol {
  import opened Core
  import opened Dag
  import opened Window
  import opened Folds
  import opened FreshTail
  import opened Recent
  import opened Rebuild
  import opened Protocol

  // ---- the two tails as sets of messages ----

  function ProtectedMessages(w: seq<WindowItem>, freshTail: int, freshTokens: int): set<MessageId> {
    set k | 0 <= k < |w| && w[k].ref.MessageRef? && InTail(WindowEntries(w), k, freshTail, freshTokens) ::
      w[k].ref.message
  }

  function TailSet(log: seq<Message>, freshTail: int, freshTokens: int): set<MessageId> {
    set i | 0 <= i < |log| && InTail(LogEntries(log), i, freshTail, freshTokens) :: log[i].id
  }

  lemma {:induction false} TailIdsAreTailSet(log: seq<Message>, n: nat, freshTail: int, freshTokens: int, id: MessageId)
    requires n <= |log|
    ensures id in TailIds(log, n, freshTail, freshTokens)
            <==> exists i :: 0 <= i < n && InTail(LogEntries(log), i, freshTail, freshTokens) && log[i].id == id
  {
    if n > 0 {
      TailIdsAreTailSet(log, n - 1, freshTail, freshTokens, id);
    }
  }

  lemma ProtectedIsTail(store: Store, w: seq<WindowItem>, freshTail: int, freshTokens: int)
    requires LogOk(store.log) && WindowOk(store, w) && RawTail(store, w, freshTail, freshTokens)
    ensures ProtectedMessages(w, freshTail, freshTokens) == TailSet(store.log[..Horizon(w)], freshTail, freshTokens)
  {
    forall k | 0 <= k < |w| && w[k].ref.MessageRef? && InTail(WindowEntries(w), k, freshTail, freshTokens)
      ensures w[k].ref.message in TailSet(store.log[..Horizon(w)], freshTail, freshTokens)
    {
      ProtectedInTail(store, w, k, freshTail, freshTokens);
    }
    forall i | 0 <= i < Horizon(w) && InTail(Seen(store, w), i, freshTail, freshTokens)
      ensures store.log[i].id in ProtectedMessages(w, freshTail, freshTokens)
    {
      TailIsProtected(store, w, i, freshTail, freshTokens);
    }
  }

  lemma ProtectedInTail(store: Store, w: seq<WindowItem>, k: nat, freshTail: int, freshTokens: int)
    requires LogOk(store.log) && WindowOk(store, w) && RawTail(store, w, freshTail, freshTokens)
    requires k < |w| && w[k].ref.MessageRef? && InTail(WindowEntries(w), k, freshTail, freshTokens)
    ensures w[k].ref.message in TailSet(store.log[..Horizon(w)], freshTail, freshTokens)
  {
    TailAgrees(store, w, k, freshTail, freshTokens);
    assert ItemOk(store, w[k]);
    var log := store.log[..Horizon(w)];
    assert log[w[k].earliest - 1].id == w[k].ref.message;
  }

  lemma TailIsProtected(store: Store, w: seq<WindowItem>, i: nat, freshTail: int, freshTokens: int)
    requires LogOk(store.log) && WindowOk(store, w) && RawTail(store, w, freshTail, freshTokens)
    requires i < Horizon(w) && InTail(Seen(store, w), i, freshTail, freshTokens)
    ensures store.log[i].id in ProtectedMessages(w, freshTail, freshTokens)
  {
    hide Tiles, CountFrom, TokensFrom, TailOpen;
    assert HoldsRaw(w, 0, store.log[i]);
    var k :| 0 <= k < |w| && w[k] == MessageItem(store.log[i]);
    TailAgrees(store, w, k, freshTail, freshTokens);
  }

  // ---- the invariant ----

  predicate SamePolicy(actions: seq<Action>, freshTail: int, freshTokens: int) {
    forall i | 0 <= i < |actions| && actions[i].Begin? :: PolicyIs(actions[i], freshTail, freshTokens)
  }

  predicate PolicyIs(a: Action, freshTail: int, freshTokens: int)
    requires a.Begin?
  {
    a.cfg.freshTailMessages == freshTail && a.cfg.freshTailTokens == freshTokens
  }

  ghost predicate TailKept(store: Store, w: seq<WindowItem>, freshTail: int, freshTokens: int) {
    Horizon(w) <= |store.log| && RawTail(store, w, freshTail, freshTokens)
  }

  ghost predicate TailOk(s: State, freshTail: int, freshTokens: int) {
    match ItemsOf(s.store, s.store.items)
    case None => false
    case Some(w) =>
      && StateOk(s)
      && TailKept(s.store, w, freshTail, freshTokens)
      && (forall pid | pid in s.passes ::
            && s.passes[pid].cfg.freshTailMessages == freshTail
            && s.passes[pid].cfg.freshTailTokens == freshTokens
            && TailKept(s.store, s.passes[pid].phase.w, freshTail, freshTokens))
  }

  lemma TailKeptExtends(s: Store, t: Store, w: seq<WindowItem>, freshTail: int, freshTokens: int)
    requires TailKept(s, w, freshTail, freshTokens) && Extends(s, t)
    ensures TailKept(t, w, freshTail, freshTokens)
  {
    assert s.log[..Horizon(w)] == t.log[..Horizon(w)];
    forall i | 0 <= i < Horizon(w) && InTail(Seen(t, w), i, freshTail, freshTokens)
      ensures HoldsRaw(w, 0, t.log[i])
    {
      assert HoldsRaw(w, 0, s.log[i]);
    }
  }

  // What the store's growth leaves as it was: the persisted window and every pass that did not move.
  lemma TailOthers(s: State, t: Store, freshTail: int, freshTokens: int)
    requires TailOk(s, freshTail, freshTokens) && LogOk(t.log) && Extends(s.store, t) && t.items == s.store.items
    ensures ItemsOf(t, t.items).Some?
    ensures TailKept(t, ItemsOf(t, t.items).value, freshTail, freshTokens)
    ensures forall p | p in s.passes :: TailKept(t, s.passes[p].phase.w, freshTail, freshTokens)
  {
    ItemsOkExtends(s.store, t);
    TailKeptExtends(s.store, t, ItemsOf(s.store, s.store.items).value, freshTail, freshTokens);
    forall p | p in s.passes
      ensures TailKept(t, s.passes[p].phase.w, freshTail, freshTokens)
    {
      TailKeptExtends(s.store, t, s.passes[p].phase.w, freshTail, freshTokens);
    }
  }

  lemma TailAfterMove(s: State, t: Store, pid: nat, phase: Phase, freshTail: int, freshTokens: int)
    requires TailOk(s, freshTail, freshTokens) && pid in s.passes
    requires Extends(s.store, t) && t.items == s.store.items
    requires StateOk(WithPhase(s.(store := t), pid, phase))
    requires TailKept(t, phase.w, freshTail, freshTokens)
    ensures TailOk(WithPhase(s.(store := t), pid, phase), freshTail, freshTokens)
  {
    TailOthers(s, t, freshTail, freshTokens);
  }

  lemma StepKeepsTail(s: State, a: Action, freshTail: int, freshTokens: int)
    requires TailOk(s, freshTail, freshTokens) && Enabled(s, a)
    requires a.Begin? ==> PolicyIs(a, freshTail, freshTokens)
    ensures TailOk(Do(s, a), freshTail, freshTokens)
  {
    StepKeepsOk(s, a);
    var t := Do(s, a);
    match a
    case Append(_) => TailOthers(s, t.store, freshTail, freshTokens);
    case Begin(_, _, _) =>
    case ReadLater(pid) =>
      ReadLaterKeepsTail(s.store, s.passes[pid].phase.w, freshTail, freshTokens);
      TailAfterMove(s, s.store, pid, t.passes[pid].phase, freshTail, freshTokens);
    case FoldLeaf(_, _, _, _, _) => FoldKeepsTail(s, a, freshTail, freshTokens);
    case FoldCondensed(_, _, _, _) => FoldKeepsTail(s, a, freshTail, freshTokens);
    case Persist(pid) =>
      PersistKeepsOk(s.store, s.passes[pid].phase.w);
      PersistKeepsTail(s, t, pid, freshTail, freshTokens);
    case Die(_) =>
  }

  lemma FoldKeepsTail(s: State, a: Action, freshTail: int, freshTokens: int)
    requires TailOk(s, freshTail, freshTokens) && IsFold(a) && Enabled(s, a)
    ensures TailOk(AfterFold(s, a), freshTail, freshTokens)
  {
    hide StoreOk, WindowOk, ItemsOk, FoldStore, FoldWindow, TailKept;
    FoldOk(s, a);
    FoldWindowKeepsTail(s, a, freshTail, freshTokens);
    FoldStepKeepsOk(s, a);
    TailAfterMove(s, FoldStore(s, a), a.pid, Folding(FoldWindow(s, a), s.passes[a.pid].phase.left - 1),
                  freshTail, freshTokens);
  }

  lemma FoldWindowKeepsTail(s: State, a: Action, freshTail: int, freshTokens: int)
    requires TailOk(s, freshTail, freshTokens) && IsFold(a) && Enabled(s, a)
    ensures TailKept(FoldStore(s, a), FoldWindow(s, a), freshTail, freshTokens)
  {
    hide StoreOk, WindowOk, ItemsOk, LeafStore, LeafWindow, CondensedStore, CondensedWindow, NoMessageBlock, TailKept;
    var p := s.passes[a.pid];
    match a
    case FoldLeaf(_, start, end, content, tokens) =>
      LeafKeepsTail(s.store, p, start, end, content, tokens, freshTail, freshTokens);
    case FoldCondensed(_, start, content, tokens) =>
      CondensedRunShape(p, start);
      CondensedKeepsTail(s.store, p.phase.w, start, start + p.cfg.condenseFanout, content, tokens,
                         freshTail, freshTokens);
  }

  lemma ReadLaterKeepsTail(store: Store, w: seq<WindowItem>, freshTail: int, freshTokens: int)
    requires StoreOk(store) && WindowOk(store, w) && TailKept(store, w, freshTail, freshTokens)
    ensures TailKept(store, Extended(store, w), freshTail, freshTokens)
  {
    ExtendedIs(store, w);
    ExtendedOk(store, w);
    ExtendKeepsRawTail(store, store, w, Extended(store, w), freshTail, freshTokens);
  }

  lemma LeafKeepsTail(store: Store, p: Pass, start: nat, end: nat, content: string, tokens: nat, freshTail: int,
                      freshTokens: int)
    requires StoreOk(store) && WindowOk(store, p.phase.w) && TailKept(store, p.phase.w, freshTail, freshTokens)
    requires p.cfg.freshTailMessages == freshTail && p.cfg.freshTailTokens == freshTokens
    requires LeafNext(p, start, end)
    ensures start < end <= |p.phase.w| && AllMessages(p.phase.w, start, end)
    ensures
      var t := LeafStore(store, p.phase.w, start, end, content, tokens);
      TailKept(t, LeafWindow(store, p.phase.w, start, end, content, tokens), freshTail, freshTokens)
  {
    var w := p.phase.w;
    LeafBlockShape(p, start, end);
    LeafFoldKeepsOk(store, w, start, end, content, tokens);
    var t := LeafStore(store, w, start, end, content, tokens);
    forall k | start <= k < end
      ensures !InTail(WindowEntries(w), k, freshTail, freshTokens)
    {
      assert Foldable(w, k, freshTail, freshTokens);
    }
    FoldKeepsRawTail(store, t, w, start, end, LeafWindow(store, w, start, end, content, tokens)[start],
                     freshTail, freshTokens);
  }

  lemma CondensedKeepsTail(store: Store, w: seq<WindowItem>, start: nat, end: nat, content: string, tokens: nat,
                           freshTail: int, freshTokens: int)
    requires StoreOk(store) && WindowOk(store, w) && TailKept(store, w, freshTail, freshTokens)
    requires start < end <= |w| && AllSummaries(w, start, end)
    requires forall k | start <= k < end :: w[k].depth == w[start].depth
    ensures forall c | c in BlockSummaries(w, start, end) :: c in store.summaries
    ensures
      var t := CondensedStore(store, w, start, end, content, tokens);
      TailKept(t, CondensedWindow(store, w, start, end, content, tokens), freshTail, freshTokens)
  {
    CondensedFoldKeepsOk(store, w, start, end, content, tokens);
    var t := CondensedStore(store, w, start, end, content, tokens);
    FoldKeepsRawTail(store, t, w, start, end, CondensedWindow(store, w, start, end, content, tokens)[start],
                     freshTail, freshTokens);
  }

  lemma PersistKeepsTail(s: State, t: State, pid: nat, freshTail: int, freshTokens: int)
    requires TailOk(s, freshTail, freshTokens) && pid in s.passes
    requires t == State(s.store.(items := Refs(s.passes[pid].phase.w)), s.passes - {pid})
    requires StateOk(t) && Extends(s.store, t.store)
    requires ItemsOf(t.store, t.store.items) == Some(s.passes[pid].phase.w)
    ensures TailOk(t, freshTail, freshTokens)
  {
    TailKeptExtends(s.store, t.store, s.passes[pid].phase.w, freshTail, freshTokens);
    forall p | p in t.passes
      ensures TailKept(t.store, t.passes[p].phase.w, freshTail, freshTokens)
    {
      TailKeptExtends(s.store, t.store, s.passes[p].phase.w, freshTail, freshTokens);
    }
  }

  lemma {:induction false} RunKeepsTail(s: State, actions: seq<Action>, t: State, freshTail: int, freshTokens: int)
    requires TailOk(s, freshTail, freshTokens) && Run(s, actions, t)
    requires SamePolicy(actions, freshTail, freshTokens)
    ensures TailOk(t, freshTail, freshTokens)
    decreases |actions|
  {
    if actions != [] {
      StepKeepsTail(s, actions[0], freshTail, freshTokens);
      assert SamePolicy(actions[1..], freshTail, freshTokens) by {
        forall i | 0 <= i < |actions[1..]| && actions[1..][i].Begin?
          ensures PolicyIs(actions[1..][i], freshTail, freshTokens)
        {
          assert actions[1..][i] == actions[i + 1];
        }
      }
      RunKeepsTail(Do(s, actions[0]), actions[1..], t, freshTail, freshTokens);
    }
  }

  // ---- the results ----

  // In every run under one tail policy, the engine protects exactly the messages
  // that recall's query computes from the full log, in the rebuilt window and,
  // for the prefix it covers, in the window of every pass in flight.
  lemma EngineAndRecallAgree(conversation: string, actions: seq<Action>, s: State, freshTail: int, freshTokens: int)
    requires Run(Initial(conversation), actions, s) && SamePolicy(actions, freshTail, freshTokens)
    ensures StateOk(s)
    ensures
      var w := Extended(s.store, ItemsOf(s.store, s.store.items).value);
      && ProtectedMessages(w, freshTail, freshTokens) == TailSet(s.store.log, freshTail, freshTokens)
      && forall id :: id in ProtectedMessages(w, freshTail, freshTokens)
                      <==> id in TailIds(s.store.log, |s.store.log|, freshTail, freshTokens)
    ensures forall pid | pid in s.passes ::
      var w := s.passes[pid].phase.w;
      Horizon(w) <= |s.store.log| &&
      ProtectedMessages(w, freshTail, freshTokens) == TailSet(s.store.log[..Horizon(w)], freshTail, freshTokens)
  {
    InitialOk(conversation);
    assert TailOk(Initial(conversation), freshTail, freshTokens);
    RunKeepsTail(Initial(conversation), actions, s, freshTail, freshTokens);
    RebuiltAgrees(s, freshTail, freshTokens);
    forall pid | pid in s.passes
      ensures
        var w := s.passes[pid].phase.w;
        ProtectedMessages(w, freshTail, freshTokens) == TailSet(s.store.log[..Horizon(w)], freshTail, freshTokens)
    {
      ProtectedIsTail(s.store, s.passes[pid].phase.w, freshTail, freshTokens);
    }
  }

  lemma RebuiltAgrees(s: State, freshTail: int, freshTokens: int)
    requires TailOk(s, freshTail, freshTokens)
    ensures
      var w := Extended(s.store, ItemsOf(s.store, s.store.items).value);
      && ProtectedMessages(w, freshTail, freshTokens) == TailSet(s.store.log, freshTail, freshTokens)
      && forall id :: id in ProtectedMessages(w, freshTail, freshTokens)
                      <==> id in TailIds(s.store.log, |s.store.log|, freshTail, freshTokens)
  {
    var items := ItemsOf(s.store, s.store.items).value;
    var w := Extended(s.store, items);
    ExtendedOk(s.store, items);
    ReadLaterKeepsTail(s.store, items, freshTail, freshTokens);
    ProtectedIsTail(s.store, w, freshTail, freshTokens);
    assert s.store.log[..Horizon(w)] == s.store.log;
    forall id
      ensures id in ProtectedMessages(w, freshTail, freshTokens)
              <==> id in TailIds(s.store.log, |s.store.log|, freshTail, freshTokens)
    {
      TailIdsAreTailSet(s.store.log, |s.store.log|, freshTail, freshTokens, id);
    }
  }

  // A fold never changes which messages are protected.
  lemma FoldKeepsProtected(s: State, a: Action, pid: nat, freshTail: int, freshTokens: int)
    requires TailOk(s, freshTail, freshTokens) && Enabled(s, a)
    requires IsFold(a) && a.pid == pid
    ensures pid in Do(s, a).passes
    ensures ProtectedMessages(Do(s, a).passes[pid].phase.w, freshTail, freshTokens)
            == ProtectedMessages(s.passes[pid].phase.w, freshTail, freshTokens)
  {
    var t := Do(s, a);
    StepKeepsTail(s, a, freshTail, freshTokens);
    StepKeepsOk(s, a);
    FoldOk(s, a);
    var w, u := s.passes[pid].phase.w, t.passes[pid].phase.w;
    ProtectedIsTail(s.store, w, freshTail, freshTokens);
    ProtectedIsTail(t.store, u, freshTail, freshTokens);
    assert s.store.log[..Horizon(w)] == t.store.log[..Horizon(u)];
  }

  // An archive pass that ends with iterations to spare leaves exactly the tail raw.
  lemma ArchiveLeavesTail(s: State, pid: nat, freshTail: int, freshTokens: int)
    requires TailOk(s, freshTail, freshTokens) && pid in s.passes
    requires Stopped(s.passes[pid]) && s.passes[pid].archiveAll && s.passes[pid].phase.left > 0
    ensures
      var w := s.passes[pid].phase.w;
      && Horizon(w) <= |s.store.log|
      && (set k | 0 <= k < |w| && w[k].ref.MessageRef? :: w[k].ref.message)
         == TailSet(s.store.log[..Horizon(w)], freshTail, freshTokens)
  {
    var w := s.passes[pid].phase.w;
    ProtectedIsTail(s.store, w, freshTail, freshTokens);
    forall k | 0 <= k < |w| && w[k].ref.MessageRef?
      ensures InTail(WindowEntries(w), k, freshTail, freshTokens)
    {
      assert !Foldable(w, k, freshTail, freshTokens);
    }
    assert (set k | 0 <= k < |w| && w[k].ref.MessageRef? :: w[k].ref.message)
           == ProtectedMessages(w, freshTail, freshTokens);
  }
}
