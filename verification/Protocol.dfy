// Concurrent compaction as an interleaving of atomic steps. Several passes share
// one store without a lock: a pass reads the persisted items, later reads the
// newer messages, folds, and at last replaces the items; messages arrive at any
// time, and a pass may die or give up at any point.
module Protocol {
  import opened Core
  import opened Config
  import opened Dag
  import opened Window
  import opened Folds
  import opened Rebuild

  // ---- the system ----

  datatype Phase =
    | Reading(w: seq<WindowItem>)
    | Folding(w: seq<WindowItem>, left: int)

  // `soft` is the threshold a pass computes once, when it begins.
  datatype Pass = Pass(cfg: Config, soft: int, archiveAll: bool, phase: Phase)

  datatype State = State(store: Store, passes: map<nat, Pass>)

  datatype Action =
    | Append(message: Message)
    | Begin(pid: nat, cfg: Config, archiveAll: bool)
    | ReadLater(pid: nat)
    | FoldLeaf(pid: nat, start: nat, end: nat, content: string, tokens: nat)
    | FoldCondensed(pid: nat, start: nat, content: string, tokens: nat)
    | Persist(pid: nat)
    | Die(pid: nat)

  function Initial(conversation: string): State {
    State(EmptyStore(conversation), map[])
  }

  // The loop has an iteration left and still wants a smaller window.
  predicate WantsFold(p: Pass) {
    p.phase.Folding? && p.phase.left > 0 && (p.archiveAll || WindowTokens(p.phase.w) > p.soft)
  }

  ghost predicate LeafNext(p: Pass, start: nat, end: nat) {
    match p.phase
    case Reading(_) => false
    case Folding(w, _) =>
      && WantsFold(p)
      && IsMessageBlock(w, p.cfg.freshTailMessages, p.cfg.freshTailTokens, p.cfg.leafChunkTokens, start, end)
  }

  ghost predicate CondensedNext(p: Pass, start: nat) {
    match p.phase
    case Reading(_) => false
    case Folding(w, _) =>
      && WantsFold(p)
      && NoMessageBlock(w, p.cfg.freshTailMessages, p.cfg.freshTailTokens)
      && p.cfg.condenseFanout >= 2
      && IsCondenseRun(w, p.cfg.condenseFanout, p.cfg.maxDepth, p.cfg.condenseChunkTokens, start)
  }

  // The loop is over: out of iterations, small enough, or nothing left to fold.
  ghost predicate Stopped(p: Pass) {
    && p.phase.Folding?
    && (WantsFold(p) ==>
          && NoMessageBlock(p.phase.w, p.cfg.freshTailMessages, p.cfg.freshTailTokens)
          && p.cfg.condenseFanout >= 2
          && NoCondenseRun(p.phase.w, p.cfg.condenseFanout, p.cfg.maxDepth, p.cfg.condenseChunkTokens))
  }

  ghost predicate Enabled(s: State, a: Action) {
    match a
    case Append(m) => m.position == |s.store.log| + 1 && m.id !in Ids(s.store.log)
    case Begin(pid, cfg, _) => pid !in s.passes && cfg.Valid() && ItemsOf(s.store, s.store.items).Some?
    case ReadLater(pid) => pid in s.passes && s.passes[pid].phase.Reading?
    case FoldLeaf(pid, start, end, _, _) => pid in s.passes && LeafNext(s.passes[pid], start, end)
    case FoldCondensed(pid, start, _, _) =>
      && pid in s.passes && CondensedNext(s.passes[pid], start)
      && RowsPresent(s.store, s.passes[pid], start)
    case Persist(pid) => pid in s.passes && Stopped(s.passes[pid])
    case Die(pid) => pid in s.passes
  }

  // Loading the run's rows finds every one; in a reachable state it always does.
  ghost predicate RowsPresent(store: Store, p: Pass, start: nat)
    requires CondensedNext(p, start)
  {
    var end := start + p.cfg.condenseFanout;
    forall c | c in BlockSummaries(p.phase.w, start, end) :: c in store.summaries
  }

  function WithPhase(s: State, pid: nat, phase: Phase): State
    requires pid in s.passes
  {
    s.(passes := s.passes[pid := s.passes[pid].(phase := phase)])
  }

  predicate IsFold(a: Action) {
    a.FoldLeaf? || a.FoldCondensed?
  }

  // The store a fold leaves.
  ghost function FoldStore(s: State, a: Action): Store
    requires IsFold(a) && Enabled(s, a)
  {
    var p := s.passes[a.pid];
    match a
    case FoldLeaf(_, start, end, content, tokens) =>
      LeafBlockShape(p, start, end);
      LeafStore(s.store, p.phase.w, start, end, content, tokens)
    case FoldCondensed(_, start, content, tokens) =>
      CondensedStore(s.store, p.phase.w, start, start + p.cfg.condenseFanout, content, tokens)
  }

  // The window a fold leaves.
  ghost function FoldWindow(s: State, a: Action): seq<WindowItem>
    requires IsFold(a) && Enabled(s, a)
  {
    var p := s.passes[a.pid];
    match a
    case FoldLeaf(_, start, end, content, tokens) =>
      LeafBlockShape(p, start, end);
      LeafWindow(s.store, p.phase.w, start, end, content, tokens)
    case FoldCondensed(_, start, content, tokens) =>
      CondensedWindow(s.store, p.phase.w, start, start + p.cfg.condenseFanout, content, tokens)
  }

  ghost function AfterFold(s: State, a: Action): State
    requires IsFold(a) && Enabled(s, a)
  {
    WithPhase(s.(store := FoldStore(s, a)), a.pid, Folding(FoldWindow(s, a), s.passes[a.pid].phase.left - 1))
  }

  ghost function Do(s: State, a: Action): State
    requires Enabled(s, a)
  {
    match a
    case Append(m) => s.(store := AppendToLog(s.store, m))
    case Begin(pid, cfg, archiveAll) =>
      s.(passes := s.passes[pid := Pass(cfg, cfg.Soft(), archiveAll, Reading(ItemsOf(s.store, s.store.items).value))])
    case ReadLater(pid) =>
      var p := s.passes[pid];
      WithPhase(s, pid, Folding(Extended(s.store, p.phase.w), p.cfg.maxIterations))
    case FoldLeaf(_, _, _, _, _) => AfterFold(s, a)
    case FoldCondensed(_, _, _, _) => AfterFold(s, a)
    case Persist(pid) =>
      State(s.store.(items := Refs(s.passes[pid].phase.w)), s.passes - {pid})
    case Die(pid) => s.(passes := s.passes - {pid})
  }

  lemma LeafBlockShape(p: Pass, start: nat, end: nat)
    requires LeafNext(p, start, end)
    ensures start < end <= |p.phase.w| && AllMessages(p.phase.w, start, end)
  {
    forall k | start <= k < end
      ensures p.phase.w[k].ref.MessageRef?
    {
      assert Foldable(p.phase.w, k, p.cfg.freshTailMessages, p.cfg.freshTailTokens);
    }
  }

  lemma CondensedRunShape(p: Pass, start: nat)
    requires CondensedNext(p, start)
    ensures
      var w, end := p.phase.w, start + p.cfg.condenseFanout;
      && start < end <= |w| && AllSummaries(w, start, end)
      && forall k | start <= k < end :: w[k].depth == w[start].depth
  {
  }

  // A run: any sequence of enabled actions.
  ghost predicate Run(s: State, actions: seq<Action>, t: State)
    decreases |actions|
  {
    if actions == [] then s == t
    else Enabled(s, actions[0]) && Run(Do(s, actions[0]), actions[1..], t)
  }

  ghost predicate Reachable(conversation: string, s: State) {
    exists actions :: Run(Initial(conversation), actions, s)
  }

  // ---- the invariant of every interleaving ----

  ghost predicate ItemsOk(store: Store) {
    var w := ItemsOf(store, store.items);
    w.Some? && WindowOk(store, w.value)
  }

  ghost predicate StateOk(s: State) {
    && StoreOk(s.store)
    && ItemsOk(s.store)
    && (forall pid | pid in s.passes :: WindowOk(s.store, s.passes[pid].phase.w))
    && (forall pid | pid in s.passes :: s.passes[pid].cfg.condenseFanout >= 2)
  }

  lemma ItemsOkExtends(s: Store, t: Store)
    requires StoreOk(s) && ItemsOk(s) && Extends(s, t) && s.items == t.items && LogOk(t.log)
    ensures ItemsOk(t) && ItemsOf(t, t.items) == ItemsOf(s, s.items)
  {
    var w := ItemsOf(s, s.items).value;
    WindowOkExtends(s, t, w);
    ItemsOfRefs(s, s.items);
    ItemsRoundTrip(t, w);
  }

  // ---- every step keeps the invariant ----

  lemma InitialOk(conversation: string)
    ensures StateOk(Initial(conversation))
  {
  }

  // The store only grows, and so every other pass's window stays valid.
  lemma StepKeepsOk(s: State, a: Action)
    requires StateOk(s) && Enabled(s, a)
    ensures StateOk(Do(s, a)) && Extends(s.store, Do(s, a).store)
  {
    match a
    case Append(m) =>
      AppendKeepsStore(s.store, m);
      ItemsOkExtends(s.store, AppendToLog(s.store, m));
      OthersKeepOk(s, AppendToLog(s.store, m));
    case Begin(pid, cfg, archiveAll) =>
    case ReadLater(pid) =>
      var p := s.passes[pid];
      ExtendedOk(s.store, p.phase.w);
      MovedKeepsOk(s, s.store, pid, Folding(Extended(s.store, p.phase.w), p.cfg.maxIterations));
    case FoldLeaf(_, _, _, _, _) => FoldStepKeepsOk(s, a);
    case FoldCondensed(_, _, _, _) => FoldStepKeepsOk(s, a);
    case Persist(pid) =>
      PersistKeepsOk(s.store, s.passes[pid].phase.w);
      OthersKeepOk(s, s.store.(items := Refs(s.passes[pid].phase.w)));
    case Die(pid) =>
  }

  // A store that extends this one suits every pass.
  lemma OthersKeepOk(s: State, t: Store)
    requires StateOk(s) && Extends(s.store, t)
    ensures forall other | other in s.passes :: WindowOk(t, s.passes[other].phase.w)
  {
    forall other | other in s.passes
      ensures WindowOk(t, s.passes[other].phase.w)
    {
      WindowOkExtends(s.store, t, s.passes[other].phase.w);
    }
  }

  lemma MovedKeepsOk(s: State, t: Store, pid: nat, phase: Phase)
    requires StateOk(s) && pid in s.passes
    requires StoreOk(t) && Extends(s.store, t) && t.items == s.store.items && WindowOk(t, phase.w)
    ensures StateOk(WithPhase(s.(store := t), pid, phase))
  {
    ItemsOkExtends(s.store, t);
    OthersKeepOk(s, t);
  }

  // A fold keeps the store and the window valid and covers the same messages.
  lemma FoldOk(s: State, a: Action)
    requires StateOk(s) && IsFold(a) && Enabled(s, a)
    ensures
      var t := FoldStore(s, a);
      && StoreOk(t) && Extends(s.store, t) && t.log == s.store.log && t.items == s.store.items
      && WindowOk(t, FoldWindow(s, a)) && Horizon(FoldWindow(s, a)) == Horizon(s.passes[a.pid].phase.w)
  {
    hide StoreOk, WindowOk, LeafStore, LeafWindow, CondensedStore, CondensedWindow, NoMessageBlock;
    var p := s.passes[a.pid];
    match a
    case FoldLeaf(_, start, end, content, tokens) =>
      LeafBlockShape(p, start, end);
      LeafFoldKeepsOk(s.store, p.phase.w, start, end, content, tokens);
    case FoldCondensed(_, start, content, tokens) =>
      CondensedRunShape(p, start);
      CondensedFoldKeepsOk(s.store, p.phase.w, start, start + p.cfg.condenseFanout, content, tokens);
  }

  lemma FoldStepKeepsOk(s: State, a: Action)
    requires StateOk(s) && IsFold(a) && Enabled(s, a)
    ensures StateOk(AfterFold(s, a)) && Extends(s.store, AfterFold(s, a).store)
  {
    hide StoreOk, WindowOk, FoldStore, FoldWindow, Extends;
    FoldOk(s, a);
    MovedKeepsOk(s, FoldStore(s, a), a.pid, Folding(FoldWindow(s, a), s.passes[a.pid].phase.left - 1));
  }

  lemma PersistKeepsOk(store: Store, w: seq<WindowItem>)
    requires StoreOk(store) && WindowOk(store, w)
    ensures
      var t := store.(items := Refs(w));
      StoreOk(t) && Extends(store, t) && ItemsOf(t, t.items) == Some(w) && ItemsOk(t)
  {
    var t := store.(items := Refs(w));
    ItemsRoundTrip(t, w);
    WindowOkExtends(store, t, w);
    forall id | id in t.summaries
      ensures RowOk(t, id)
    {
      assert RowOk(store, id);
    }
  }

  lemma {:induction false} RunKeepsOk(s: State, actions: seq<Action>, t: State)
    requires StateOk(s) && Run(s, actions, t)
    ensures StateOk(t) && Extends(s.store, t.store)
    decreases |actions|
  {
    if actions != [] {
      StepKeepsOk(s, actions[0]);
      RunKeepsOk(Do(s, actions[0]), actions[1..], t);
      ExtendsTransitive(s.store, Do(s, actions[0]).store, t.store);
    }
  }

  lemma ReachableOk(conversation: string, s: State)
    requires Reachable(conversation, s)
    ensures StateOk(s)
  {
    InitialOk(conversation);
    var actions :| Run(Initial(conversation), actions, s);
    RunKeepsOk(Initial(conversation), actions, s);
  }
}
