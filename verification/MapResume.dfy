// Durability across crashes and restarts of a map run. At any time an item is queued, held
// by one worker or neither; a worker's memory matches the file of the item it holds; the
// channel is in index order. From this follow how often an item is processed, how many
// calls all runs together make, and that a settled file is never written again.
module MapResume {
  import opened Core
  import opened MapItem
  import opened MapPool

  // ---- ownership ----

  predicate HoldsItem(worker: Worker, i: nat) {
    worker.phase.Holds() && worker.phase.index == i
  }

  predicate HeldBy(workers: seq<Worker>, i: nat) {
    exists w | 0 <= w < |workers| :: HoldsItem(workers[w], i)
  }

  predicate Buffered(buffer: seq<Work>, i: nat) {
    exists j | 0 <= j < |buffer| :: buffer[j].index == i
  }

  // Items leave the channel in input order, so what workers hold comes before what
  // is buffered, and that before what is still to be scanned.
  predicate WorkerOk(params: Params, s: Pool, w: nat)
    requires w < |s.workers|
  {
    var phase := s.workers[w].phase;
    phase.Holds() ==>
      && phase.index < s.next && phase.index < |s.cells| && phase.index < |s.calls|
      && (s.buffer != [] ==> phase.index < s.buffer[0].index)
      && PhaseOk(params.maxAttempts, s.cells[phase.index], phase)
      && (phase.Calling? ==> s.calls[phase.index] < phase.st.attempts)
  }

  predicate QueuedOk(s: Pool, work: Work) {
    work.index < |s.cells| && Resumable(work.index, s.cells[work.index]) == Some(work)
  }

  predicate BufferOk(s: Pool) {
    && (forall j | 0 <= j < |s.buffer| :: s.buffer[j].index < s.next && QueuedOk(s, s.buffer[j]))
    && (forall j, k | 0 <= j < k < |s.buffer| :: s.buffer[j].index < s.buffer[k].index)
  }

  predicate ProducerOk(s: Pool) {
    match s.producer
    case Adding(work) => work.index == s.next && QueuedOk(s, work)
    case Peaking(work, _) => work.index == s.next && QueuedOk(s, work)
    case Sending(work) => work.index == s.next && QueuedOk(s, work)
    case Scanned(failed) => failed || s.next >= |s.cells|
    case Closed(failed) => failed || s.next >= |s.cells|
    case Finished(failed) => failed || s.next >= |s.cells|
    case _ => true
  }

  predicate OneOwner(workers: seq<Worker>) {
    forall v, w | 0 <= v < w < |workers| && workers[v].phase.Holds() && workers[w].phase.Holds() ::
      workers[v].phase.index != workers[w].phase.index
  }

  predicate WorkersOk(params: Params, s: Pool) {
    forall w | 0 <= w < |s.workers| :: WorkerOk(params, s, w)
  }

  // The file never has more attempts than allowed nor fewer than calls made.
  predicate FileOk(params: Params, s: Pool, i: nat)
    requires i < |s.cells| && |s.calls| == |s.cells|
  {
    CellOk(params.maxAttempts, s.cells[i]) && s.calls[i] <= Attempts(s.cells[i])
  }

  predicate FilesOk(params: Params, s: Pool) {
    && |s.cells| == |s.calls| == params.items
    && (forall i | 0 <= i < |s.cells| :: FileOk(params, s, i))
  }

  predicate OwnersOk(params: Params, s: Pool) {
    && FilesOk(params, s)
    && BufferOk(s) && ProducerOk(s) && OneOwner(s.workers) && WorkersOk(params, s)
  }

  // ---- each step keeps it ----

  lemma StepItem(params: Params, s: Pool, w: nat, e: Event)
    requires OwnersOk(params, s) && Enabled(params, s, Step(w, e))
    ensures
      var phase := s.workers[w].phase;
      var t := AfterStep(params, s, w, e);
      && phase.Holds() && phase.index < |s.cells| && |t.cells| == |s.cells| && |t.calls| == |s.calls|
      && t.workers[w].phase.Holds() && t.workers[w].phase.index == phase.index
      && CellGrows(s.cells[phase.index], t.cells[phase.index])
      && (forall i | 0 <= i < |s.cells| && i != phase.index :: t.cells[i] == s.cells[i] && t.calls[i] == s.calls[i])
      && CellOk(params.maxAttempts, t.cells[phase.index]) && t.calls[phase.index] <= Attempts(t.cells[phase.index])
      && WorkerOk(params, t, w)
  {
    hide BufferOk, ProducerOk, OneOwner, CellGrows;
    var phase := s.workers[w].phase;
    assert WorkerOk(params, s, w) && FileOk(params, s, phase.index);
    MoveKeepsOk(params.maxAttempts, s.cells[phase.index], phase, e);
  }

  lemma StepKeepsFiles(params: Params, s: Pool, w: nat, e: Event)
    requires OwnersOk(params, s) && Enabled(params, s, Step(w, e))
    ensures FilesOk(params, AfterStep(params, s, w, e))
  {
    StepItem(params, s, w, e);
    var t := AfterStep(params, s, w, e);
    forall i | 0 <= i < |t.cells|
      ensures FileOk(params, t, i)
    {
      assert FileOk(params, s, i);
    }
  }

  lemma StepKeepsWorkers(params: Params, s: Pool, w: nat, e: Event)
    requires OwnersOk(params, s) && Enabled(params, s, Step(w, e))
    ensures OneOwner(AfterStep(params, s, w, e).workers) && WorkersOk(params, AfterStep(params, s, w, e))
  {
    StepItem(params, s, w, e);
    var t := AfterStep(params, s, w, e);
    forall v | 0 <= v < |t.workers|
      ensures WorkerOk(params, t, v)
    {
      assert WorkerOk(params, s, v);
    }
  }

  lemma StepKeepsBuffer(params: Params, s: Pool, w: nat, e: Event)
    requires OwnersOk(params, s) && Enabled(params, s, Step(w, e))
    ensures BufferOk(AfterStep(params, s, w, e)) && ProducerOk(AfterStep(params, s, w, e))
  {
    StepItem(params, s, w, e);
    var t := AfterStep(params, s, w, e);
    assert WorkerOk(params, s, w);
    forall j | 0 <= j < |t.buffer|
      ensures t.buffer[j].index < t.next && QueuedOk(t, t.buffer[j])
    {
      assert s.buffer[0].index <= s.buffer[j].index;
      assert QueuedOk(s, s.buffer[j]);
    }
  }

  // The files, calls, producer and buffer stay, and one worker moves without taking an item.
  lemma QuietKeepsOwners(params: Params, s: Pool, t: Pool, w: nat, phase: Phase)
    requires OwnersOk(params, s) && w < |s.workers| && !phase.Holds()
    requires t.cells == s.cells && t.calls == s.calls && t.next == s.next && t.producer == s.producer
    requires t.buffer == s.buffer
    requires t.workers == s.workers[w := s.workers[w].(phase := phase)]
    ensures OwnersOk(params, t)
  {
    forall i | 0 <= i < |t.cells|
      ensures FileOk(params, t, i)
    {
      assert FileOk(params, s, i);
    }
    forall v | 0 <= v < |t.workers|
      ensures WorkerOk(params, t, v)
    {
      assert WorkerOk(params, s, v);
    }
    forall j | 0 <= j < |t.buffer|
      ensures QueuedOk(t, t.buffer[j])
    {
      assert QueuedOk(s, s.buffer[j]);
    }
  }

  lemma TakeKeepsOwners(params: Params, s: Pool, w: nat)
    requires OwnersOk(params, s) && Enabled(params, s, Receive(w))
    requires s.buffer != [] && s.workers[w].received < params.maxItems
    ensures OwnersOk(params, AfterReceive(params, s, w))
  {
    var t := AfterReceive(params, s, w);
    assert QueuedOk(s, s.buffer[0]);
    forall i | 0 <= i < |t.cells|
      ensures FileOk(params, t, i)
    {
      assert FileOk(params, s, i);
    }
    forall v | 0 <= v < |t.workers|
      ensures WorkerOk(params, t, v)
    {
      assert WorkerOk(params, s, v);
    }
    forall j | 0 <= j < |t.buffer|
      ensures t.buffer[j].index < t.next && QueuedOk(t, t.buffer[j])
    {
      assert t.buffer[j] == s.buffer[j + 1] && QueuedOk(s, s.buffer[j + 1]);
    }
    forall v, u | 0 <= v < u < |t.workers| && t.workers[v].phase.Holds() && t.workers[u].phase.Holds()
      ensures t.workers[v].phase.index != t.workers[u].phase.index
    {
      assert WorkerOk(params, s, v) && WorkerOk(params, s, u);
    }
  }

  // The files and workers stay; at most one queued item is added behind the others.
  lemma ProducerKeepsOwners(params: Params, s: Pool, t: Pool)
    requires OwnersOk(params, s)
    requires t.cells == s.cells && t.calls == s.calls && t.workers == s.workers
    requires s.next <= t.next && ProducerOk(t)
    requires
      || t.buffer == s.buffer
      || (exists work :: t.buffer == s.buffer + [work] && work.index == s.next < t.next && QueuedOk(s, work))
    ensures OwnersOk(params, t)
  {
    forall i | 0 <= i < |t.cells|
      ensures FileOk(params, t, i)
    {
      assert FileOk(params, s, i);
    }
    forall v | 0 <= v < |t.workers|
      ensures WorkerOk(params, t, v)
    {
      assert WorkerOk(params, s, v);
    }
    forall j | 0 <= j < |t.buffer|
      ensures t.buffer[j].index < t.next && QueuedOk(t, t.buffer[j])
    {
      if j < |s.buffer| {
        assert QueuedOk(s, s.buffer[j]);
      }
    }
  }

  lemma StepKeepsOwners(params: Params, s: Pool, a: Action)
    requires OwnersOk(params, s) && Enabled(params, s, a)
    ensures OwnersOk(params, Do(params, s, a))
  {
    hide OneOwner, WorkersOk;
    if ByWorker(a) {
      WorkerKeepsOwners(params, s, a);
    } else if a.Crash? {
      CrashKeepsOwners(params, s, a.cap);
    } else {
      ProducerKeepsOwners(params, s, Do(params, s, a));
    }
  }

  lemma WorkerKeepsOwners(params: Params, s: Pool, a: Action)
    requires OwnersOk(params, s) && Enabled(params, s, a) && ByWorker(a)
    ensures OwnersOk(params, Do(params, s, a))
  {
    hide OneOwner, WorkersOk;
    var t := Do(params, s, a);
    match a
    case Step(w, e) =>
      StepKeepsFiles(params, s, w, e);
      StepKeepsWorkers(params, s, w, e);
      StepKeepsBuffer(params, s, w, e);
    case Receive(w) =>
      if s.buffer != [] && s.workers[w].received < params.maxItems {
        TakeKeepsOwners(params, s, w);
      } else {
        QuietKeepsOwners(params, s, t, w, Exited);
      }
    case Release(w) => QuietKeepsOwners(params, s, t, w, t.workers[w].phase);
    case Report(w) => QuietKeepsOwners(params, s, t, w, t.workers[w].phase);
    case Cancel(w) => QuietKeepsOwners(params, s, t, w, Exited);
  }

  lemma CrashKeepsOwners(params: Params, s: Pool, cap: nat)
    requires FilesOk(params, s)
    ensures OwnersOk(params, Started(cap, s.cells, s.calls))
  {
    var t := Started(cap, s.cells, s.calls);
    forall i | 0 <= i < |t.cells|
      ensures FileOk(params, t, i)
    {
      assert FileOk(params, s, i);
    }
  }

  // ---- what a step does to the files ----

  predicate FilesGrow(s: Pool, t: Pool) {
    && |t.cells| == |s.cells| && |t.calls| == |s.calls|
    && (forall i | 0 <= i < |s.cells| :: CellGrows(s.cells[i], t.cells[i]))
    && (forall i | 0 <= i < |s.calls| :: s.calls[i] <= t.calls[i])
  }

  lemma StepGrowsFiles(params: Params, s: Pool, a: Action)
    requires OwnersOk(params, s) && Enabled(params, s, a)
    ensures FilesGrow(s, Do(params, s, a))
  {
    if a.Step? {
      StepItem(params, s, a.w, a.event);
    }
  }

  lemma FreshOwners(params: Params, cap: nat)
    ensures OwnersOk(params, Fresh(params, cap))
  {
  }

  lemma {:induction false} RunKeepsOwners(params: Params, s: Pool, actions: seq<Action>, t: Pool)
    requires OwnersOk(params, s) && Run(params, s, actions, t)
    ensures OwnersOk(params, t) && FilesGrow(s, t)
    decreases |actions|
  {
    if actions != [] {
      var u := Do(params, s, actions[0]);
      StepKeepsOwners(params, s, actions[0]);
      StepGrowsFiles(params, s, actions[0]);
      RunKeepsOwners(params, u, actions[1..], t);
      forall i | 0 <= i < |s.cells|
        ensures CellGrows(s.cells[i], t.cells[i])
      {
        assert CellGrows(s.cells[i], u.cells[i]) && CellGrows(u.cells[i], t.cells[i]);
      }
    }
  }

  function SumCalls(calls: seq<nat>): nat {
    if calls == [] then 0 else SumCalls(calls[..|calls| - 1]) + calls[|calls| - 1]
  }

  lemma {:induction false} SumCallsBound(calls: seq<nat>, bound: nat)
    requires forall i | 0 <= i < |calls| :: calls[i] <= bound
    ensures SumCalls(calls) <= |calls| * bound
  {
    if calls != [] {
      SumCallsBound(calls[..|calls| - 1], bound);
      assert |calls| * bound == (|calls| - 1) * bound + bound;
    }
  }

  // The run refuses to begin when its worst case exceeds a positive call limit.
  predicate OverBudget(params: Params, maxCalls: nat) {
    maxCalls > 0 && params.items * params.maxAttempts > maxCalls
  }

  // Over any number of crashes, cancellations and restarts of one run: an item is
  // processed at most maxAttempts times and never more often than its file says; all
  // calls together stay below the worst case, and so within a positive limit that the
  // run checked before it began.
  lemma CallsAreBounded(params: Params, cap: nat, actions: seq<Action>, s: Pool, maxCalls: nat)
    requires Run(params, Fresh(params, cap), actions, s)
    ensures |s.calls| == |s.cells| == params.items
    ensures forall i | 0 <= i < params.items :: s.calls[i] <= Attempts(s.cells[i]) <= params.maxAttempts
    ensures SumCalls(s.calls) <= params.items * params.maxAttempts
    ensures maxCalls > 0 && !OverBudget(params, maxCalls) ==> SumCalls(s.calls) <= maxCalls
  {
    FreshOwners(params, cap);
    RunKeepsOwners(params, Fresh(params, cap), actions, s);
    forall i | 0 <= i < params.items
      ensures s.calls[i] <= Attempts(s.cells[i]) <= params.maxAttempts
    {
      assert FileOk(params, s, i);
    }
    SumCallsBound(s.calls, params.maxAttempts);
  }

  // An item's attempts never go down and a settled file is never rewritten.
  lemma SettledIsFinal(params: Params, cap: nat, before: seq<Action>, s: Pool, after: seq<Action>, t: Pool, i: nat)
    requires Run(params, Fresh(params, cap), before, s) && Run(params, s, after, t) && i < params.items
    ensures |s.cells| == |t.cells| == params.items
    ensures Attempts(s.cells[i]) <= Attempts(t.cells[i])
    ensures Settled(s.cells[i]) ==> t.cells[i] == s.cells[i]
  {
    FreshOwners(params, cap);
    RunKeepsOwners(params, Fresh(params, cap), before, s);
    RunKeepsOwners(params, s, after, t);
    assert CellGrows(s.cells[i], t.cells[i]);
  }
}
