// What folding costs and when it ends: item counts, a termination measure, and
// what a second pass finds.
module Accounting {
  import opened Core
  import opened Dag
  import opened Window
  import opened Folds
  import opened Rebuild
  import opened Protocol

  // ---- counting items ----

  function RawCount(w: seq<WindowItem>): nat {
    if w == [] then 0
    else RawCount(w[..|w| - 1]) + (if w[|w| - 1].ref.MessageRef? then 1 else 0)
  }

  function SummaryCount(w: seq<WindowItem>): int {
    |w| - RawCount(w)
  }

  lemma {:induction false} RawConcat(a: seq<WindowItem>, b: seq<WindowItem>)
    ensures RawCount(a + b) == RawCount(a) + RawCount(b)
    ensures RawCount(b) <= |b|
    decreases |b|
  {
    if b == [] {
      assert a + b == a;
    } else {
      assert (a + b)[..|a + b| - 1] == a + b[..|b| - 1];
      RawConcat(a, b[..|b| - 1]);
    }
  }

  lemma {:induction false} RawOf(w: seq<WindowItem>, messages: bool)
    requires forall k | 0 <= k < |w| :: w[k].ref.MessageRef? == messages
    ensures RawCount(w) == if messages then |w| else 0
  {
    if w != [] {
      RawOf(w[..|w| - 1], messages);
    }
  }

  // Replacing a uniform block by one summary.
  lemma ReplaceCounts(w: seq<WindowItem>, start: nat, end: nat, item: WindowItem, messages: bool)
    requires start < end <= |w| && !item.ref.MessageRef?
    requires forall k | start <= k < end :: w[k].ref.MessageRef? == messages
    ensures
      var u := ReplaceRange(w, start, end, item);
      && |u| == |w| - (end - start) + 1
      && RawCount(u) == RawCount(w) - (if messages then end - start else 0)
      && RawCount(u) < |u|
  {
    var block := w[start..end];
    assert w == w[..start] + block + w[end..];
    RawConcat(w[..start] + block, w[end..]);
    RawConcat(w[..start], block);
    RawOf(block, messages);
    assert [item][..0] == [];
    RawConcat(w[..start] + [item], w[end..]);
    RawConcat(w[..start], [item]);
    RawConcat([], w[..start]);
    assert [] + w[..start] == w[..start];
  }

  // A fold removes messages or shortens the window, so folding ends by itself.
  lemma FoldDecreases(w: seq<WindowItem>, start: nat, end: nat, item: WindowItem, messages: bool)
    requires start < end <= |w| && !item.ref.MessageRef?
    requires forall k | start <= k < end :: w[k].ref.MessageRef? == messages
    requires messages || end - start >= 2
    ensures
      var u := ReplaceRange(w, start, end, item);
      RawCount(u) + |u| < RawCount(w) + |w|
  {
    ReplaceCounts(w, start, end, item, messages);
  }

  // A whole run of one pass between reading and persisting takes at most as many
  // folds as the window's messages and items together.
  predicate IsFoldOf(a: Action, pid: nat) {
    IsFold(a) && a.pid == pid
  }

  function FoldsOf(actions: seq<Action>, pid: nat): nat {
    if actions == [] then 0
    else (if IsFoldOf(actions[0], pid) then 1 else 0)
         + FoldsOf(actions[1..], pid)
  }

  predicate StaysInFlight(actions: seq<Action>, pid: nat) {
    forall i | 0 <= i < |actions| :: !LeavesFolding(actions[i], pid)
  }

  predicate LeavesFolding(a: Action, pid: nat) {
    (a.Persist? || a.Die? || a.ReadLater? || a.Begin?) && a.pid == pid
  }

  function Measure(p: Pass): nat {
    RawCount(p.phase.w) + |p.phase.w|
  }

  lemma StepMeasure(s: State, a: Action, pid: nat)
    requires StateOk(s) && Enabled(s, a) && pid in s.passes && !LeavesFolding(a, pid)
    ensures pid in Do(s, a).passes
    ensures IsFoldOf(a, pid) ==> Measure(Do(s, a).passes[pid]) < Measure(s.passes[pid])
    ensures !IsFoldOf(a, pid) ==> Do(s, a).passes[pid] == s.passes[pid]
  {
    if IsFoldOf(a, pid) {
      FoldMeasure(s, a);
    }
  }

  lemma FoldMeasure(s: State, a: Action)
    requires StateOk(s) && IsFold(a) && Enabled(s, a)
    ensures RawCount(FoldWindow(s, a)) + |FoldWindow(s, a)| < Measure(s.passes[a.pid])
  {
    hide StoreOk, WindowOk, ItemsOk, RawCount, LeafStore, CondensedStore, NoMessageBlock;
    var p, w := s.passes[a.pid], s.passes[a.pid].phase.w;
    match a
    case FoldLeaf(_, start, end, content, tokens) =>
      LeafBlockShape(p, start, end);
      FoldDecreases(w, start, end, FoldWindow(s, a)[start], true);
    case FoldCondensed(_, start, content, tokens) =>
      CondensedRunShape(p, start);
      FoldDecreases(w, start, start + p.cfg.condenseFanout, FoldWindow(s, a)[start], false);
  }

  // Without the iteration cap folding would still end: however other processes
  // interleave, a pass folds fewer times than its window has messages plus items.
  lemma {:induction false} FoldsAreBounded(s: State, actions: seq<Action>, t: State, pid: nat)
    requires StateOk(s) && Run(s, actions, t) && pid in s.passes && StaysInFlight(actions, pid)
    ensures pid in t.passes
    ensures FoldsOf(actions, pid) + Measure(t.passes[pid]) <= Measure(s.passes[pid])
    decreases |actions|
  {
    hide StateOk, Enabled, Measure, Do;
    if actions != [] {
      assert !LeavesFolding(actions[0], pid);
      StepKeepsOk(s, actions[0]);
      StepMeasure(s, actions[0], pid);
      assert forall i | 0 <= i < |actions[1..]| :: actions[1..][i] == actions[i + 1];
      FoldsAreBounded(Do(s, actions[0]), actions[1..], t, pid);
    }
  }

  // ---- a second pass ----

  // Persisting and rebuilding gives back the same window, then the newer messages.
  lemma PersistThenRebuild(s: State, pid: nat)
    requires StateOk(s) && Enabled(s, Persist(pid))
    ensures
      var w := s.passes[pid].phase.w;
      var t := Do(s, Persist(pid)).store;
      && ItemsOf(t, t.items) == Some(w)
      && Extended(t, w) == w + MessageItems(t.log[Horizon(w)..])
  {
    var w := s.passes[pid].phase.w;
    PersistKeepsOk(s.store, w);
    WindowOkExtends(s.store, Do(s, Persist(pid)).store, w);
    ExtendedIs(Do(s, Persist(pid)).store, w);
  }

  // When the first pass stopped with iterations left and no message has arrived,
  // a second pass of the same kind has nothing to fold and rewrites the same items.
  lemma SecondPassFoldsNothing(s: State, pid: nat, pid': nat)
    requires StateOk(s) && Enabled(s, Persist(pid)) && s.passes[pid].phase.left > 0
    requires Horizon(s.passes[pid].phase.w) == |s.store.log|
    requires pid' !in s.passes && s.passes[pid].cfg.Valid() && s.passes[pid].soft == s.passes[pid].cfg.Soft()
    ensures
      var p := s.passes[pid];
      var t := Do(s, Persist(pid));
      && Enabled(t, Begin(pid', p.cfg, p.archiveAll))
      && var u := Do(t, Begin(pid', p.cfg, p.archiveAll));
      && Enabled(u, ReadLater(pid'))
      && var v := Do(u, ReadLater(pid'));
      && Stopped(v.passes[pid'])
      && v.passes[pid'].phase.w == p.phase.w
      && Do(v, Persist(pid')) == t
  {
    var p := s.passes[pid];
    var w := p.phase.w;
    var t := Do(s, Persist(pid));
    PersistThenRebuild(s, pid);
    assert w + MessageItems(t.store.log[Horizon(w)..]) == w;
    SecondPass(t, p, pid');
  }

  lemma SecondPass(t: State, p: Pass, pid': nat)
    requires p.phase.Folding? && p.phase.left > 0 && Stopped(p) && p.cfg.Valid() && p.soft == p.cfg.Soft()
    requires t.store.items == Refs(p.phase.w) && ItemsOf(t.store, t.store.items) == Some(p.phase.w)
    requires Extended(t.store, p.phase.w) == p.phase.w && pid' !in t.passes
    ensures Enabled(t, Begin(pid', p.cfg, p.archiveAll))
    ensures
      var u := Do(t, Begin(pid', p.cfg, p.archiveAll));
      && Enabled(u, ReadLater(pid'))
      && var v := Do(u, ReadLater(pid'));
      && Stopped(v.passes[pid'])
      && v.passes[pid'].phase.w == p.phase.w
      && Do(v, Persist(pid')) == t
  {
    hide NoMessageBlock, NoCondenseRun, WantsFold, Stopped, Extended, ItemsOf, Refs;
    var u := Do(t, Begin(pid', p.cfg, p.archiveAll));
    var v := Do(u, ReadLater(pid'));
    assert v.passes[pid'] == Pass(p.cfg, p.soft, p.archiveAll, Folding(p.phase.w, p.cfg.maxIterations));
    StoppedAgain(p, v.passes[pid']);
    assert v.passes - {pid'} == t.passes;
  }

  lemma StoppedAgain(p: Pass, q: Pass)
    requires Stopped(p) && p.phase.left > 0
    requires q.phase.Folding? && q == p.(phase := Folding(p.phase.w, q.phase.left))
    ensures Stopped(q)
  {
  }
}
