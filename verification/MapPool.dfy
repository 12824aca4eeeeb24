// The bounded worker pool of a map run as interleaved steps: one producer, `cap`
// workers, a channel of capacity `cap`, a one-place error slot that cancels, and
// durable item files. The process may be cancelled or die and be started again at
// any point, with another concurrency.
module MapPool {
  import opened Core
  import opened MapItem

  // `maxItems` bounds both the input and each worker's loop.
  datatype Params = Params(items: nat, maxAttempts: nat, maxItems: nat)

  datatype Worker = Worker(received: nat, phase: Phase)

  datatype Producer =
    | Scanning
    | Adding(work: Work)
    | Peaking(work: Work, current: int)
    | Sending(work: Work)
    | Scanned(failed: bool)
    | Closed(failed: bool)
    | Finished(failed: bool)

  // `next` counts the items the producer is done with. `slot` is the error slot
  // and `stopped` the outer context; `cancelled` is the pool's own context.
  datatype Pool = Pool(
    cap: nat,
    cells: seq<Cell>,
    calls: seq<nat>,
    next: nat,
    producer: Producer,
    buffer: seq<Work>,
    workers: seq<Worker>,
    inFlight: int,
    peak: int,
    slot: bool,
    cancelled: bool,
    stopped: bool)

  datatype Action =
    | Scan(ok: bool)
    | Add
    | Peak
    | Send
    | Withdraw
    | Close
    | Finish
    | Receive(w: nat)
    | Step(w: nat, event: Event)
    | Release(w: nat)
    | Report(w: nat)
    | Cancel(w: nat)
    | Stop
    | Crash(cap: nat)

  // A run started on the files that are there.
  function Started(cap: nat, cells: seq<Cell>, calls: seq<nat>): Pool {
    Pool(cap, cells, calls, 0, Scanning, [], seq(cap, _ => Worker(0, Waiting)), 0, 0, false, false, false)
  }

  function Fresh(params: Params, cap: nat): Pool {
    Started(cap, seq(params.items, _ => None), seq(params.items, _ => 0))
  }

  predicate ChannelClosed(s: Pool) {
    s.producer.Closed? || s.producer.Finished?
  }

  predicate Enabled(params: Params, s: Pool, a: Action) {
    match a
    case Scan(ok) => s.producer.Scanning? && (!ok ==> s.next < params.items)
    case Add => s.producer.Adding?
    case Peak => s.producer.Peaking?
    case Send => s.producer.Sending? && |s.buffer| < s.cap
    case Withdraw => s.producer.Sending? && s.cancelled
    case Close => s.producer.Scanned?
    case Finish => s.producer.Closed? && forall w | 0 <= w < |s.workers| :: s.workers[w].phase.Exited?
    case Receive(w) =>
      && w < |s.workers| && s.workers[w].phase.Waiting?
      && (s.workers[w].received < params.maxItems ==> s.buffer != [] || ChannelClosed(s))
    case Step(w, e) =>
      && w < |s.workers| && CanMove(s.workers[w].phase, e)
      && (e.Check? ==> e.cancelled == s.cancelled)
    case Release(w) => w < |s.workers| && s.workers[w].phase.Releasing?
    case Report(w) => w < |s.workers| && s.workers[w].phase.Reporting?
    case Cancel(w) => w < |s.workers| && s.workers[w].phase.Cancelling?
    case Stop => !s.stopped
    case Crash(cap) => cap > 0
  }

  function At(s: Pool, w: nat, phase: Phase): Pool
    requires w < |s.workers|
  {
    s.(workers := s.workers[w := s.workers[w].(phase := phase)])
  }

  // Loading an item's file: skip a settled item, queue any other.
  function AfterScan(params: Params, s: Pool, ok: bool): Pool {
    if s.next >= params.items || s.next >= |s.cells| then s.(producer := Scanned(false))
    else if !ok then s.(producer := Scanned(true))
    else
      match Resumable(s.next, s.cells[s.next])
      case None => s.(next := s.next + 1)
      case Some(work) => s.(producer := Adding(work))
  }

  function AfterReceive(params: Params, s: Pool, w: nat): Pool
    requires Enabled(params, s, Receive(w))
  {
    if s.workers[w].received >= params.maxItems || s.buffer == [] then At(s, w, Exited)
    else
      s.(buffer := s.buffer[1..], workers := s.workers[w := Worker(s.workers[w].received + 1, Start(s.buffer[0]))])
  }

  function AfterStep(params: Params, s: Pool, w: nat, e: Event): Pool
    requires Enabled(params, s, Step(w, e))
  {
    var phase := s.workers[w].phase;
    var t := At(s, w, NextPhase(params.maxAttempts, phase, e));
    if phase.index < |s.cells| && phase.index < |s.calls| then
      t.(cells := s.cells[phase.index := NextCell(s.cells[phase.index], phase, e)],
         calls := if e.Call? then s.calls[phase.index := s.calls[phase.index] + 1] else s.calls)
    else t
  }

  function Do(params: Params, s: Pool, a: Action): Pool
    requires Enabled(params, s, a)
  {
    match a
    case Scan(ok) => AfterScan(params, s, ok)
    case Add => s.(inFlight := s.inFlight + 1, producer := Peaking(s.producer.work, s.inFlight + 1))
    case Peak => s.(peak := Max(s.peak, s.producer.current), producer := Sending(s.producer.work))
    case Send => s.(buffer := s.buffer + [s.producer.work], next := s.next + 1, producer := Scanning)
    case Withdraw => s.(inFlight := s.inFlight - 1, producer := Scanned(true))
    case Close => s.(producer := Closed(s.producer.failed))
    case Finish => s.(producer := Finished(s.producer.failed))
    case Receive(w) => AfterReceive(params, s, w)
    case Step(w, e) => AfterStep(params, s, w, e)
    case Release(w) =>
      At(s.(inFlight := s.inFlight - 1), w, if s.workers[w].phase.failed then Reporting else Waiting)
    case Report(w) => if s.slot then At(s, w, Exited) else At(s.(slot := true), w, Cancelling)
    case Cancel(w) => At(s.(cancelled := true), w, Exited)
    case Stop => s.(stopped := true, cancelled := true)
    case Crash(cap) => Started(cap, s.cells, s.calls)
  }

  // The run reported success: no worker error, no scan error, not cancelled from outside.
  predicate Succeeded(s: Pool) {
    s.producer.Finished? && !s.slot && !s.producer.failed && !s.stopped
  }

  // The peak is raised exactly to what a producer counted in flight when it added an item.
  lemma PeakIsHighest(params: Params, s: Pool, a: Action)
    requires Enabled(params, s, a)
    ensures a.Add? ==> Do(params, s, a).producer.current == Do(params, s, a).inFlight == s.inFlight + 1
    ensures a.Peak? && s.peak < s.producer.current ==> Do(params, s, a).peak == s.producer.current
    ensures a.Peak? && s.peak >= s.producer.current ==> Do(params, s, a).peak == s.peak
    ensures !a.Peak? && !a.Crash? ==> Do(params, s, a).peak == s.peak
  {
  }

  // ---- the accounting invariant ----

  function Held(workers: seq<Worker>): nat {
    if workers == [] then 0
    else Held(workers[..|workers| - 1]) + (if workers[|workers| - 1].phase.Holds() then 1 else 0)
  }

  function ReceivedBy(workers: seq<Worker>): nat {
    if workers == [] then 0 else ReceivedBy(workers[..|workers| - 1]) + workers[|workers| - 1].received
  }

  function ProducerHolds(s: Pool): nat {
    if s.producer.Peaking? || s.producer.Sending? then 1 else 0
  }

  // Exactly the buffered items, the items workers hold, and at most one more are in flight.
  predicate CountsOk(params: Params, s: Pool) {
    && s.cap > 0 && |s.workers| == s.cap && |s.buffer| <= s.cap
    && s.next <= params.items
    && (s.producer.Adding? || s.producer.Peaking? || s.producer.Sending? ==> s.next < params.items)
    && s.inFlight == |s.buffer| + Held(s.workers) + ProducerHolds(s)
    && s.peak <= 2 * s.cap + 1
    && (s.producer.Peaking? ==> s.producer.current <= 2 * s.cap + 1)
    && ReceivedBy(s.workers) + |s.buffer| <= s.next
  }

  lemma {:induction false} CountsOfUpdate(workers: seq<Worker>, w: nat, worker: Worker)
    requires w < |workers|
    ensures Held(workers[w := worker])
            == Held(workers) - (if workers[w].phase.Holds() then 1 else 0) + (if worker.phase.Holds() then 1 else 0)
    ensures ReceivedBy(workers[w := worker]) == ReceivedBy(workers) - workers[w].received + worker.received
    ensures Held(workers) <= |workers| && workers[w].received <= ReceivedBy(workers)
  {
    var n := |workers| - 1;
    var updated := workers[w := worker];
    HeldBound(workers);
    if w < n {
      CountsOfUpdate(workers[..n], w, worker);
      assert updated[..n] == workers[..n][w := worker];
    } else {
      assert updated[..n] == workers[..n];
    }
  }

  lemma {:induction false} HeldBound(workers: seq<Worker>)
    ensures Held(workers) <= |workers|
  {
    if workers != [] {
      HeldBound(workers[..|workers| - 1]);
    }
  }

  lemma {:induction false} StartedCounts(n: nat)
    ensures Held(seq(n, _ => Worker(0, Waiting))) == 0 && ReceivedBy(seq(n, _ => Worker(0, Waiting))) == 0
  {
    if n > 0 {
      StartedCounts(n - 1);
      assert seq(n, _ => Worker(0, Waiting))[..n - 1] == seq(n - 1, _ => Worker(0, Waiting));
    }
  }

  predicate ByWorker(a: Action) {
    a.Receive? || a.Step? || a.Release? || a.Report? || a.Cancel?
  }

  function Holding(worker: Worker): nat {
    if worker.phase.Holds() then 1 else 0
  }

  // One worker moved, and what left the buffer it received.
  predicate Moved(s: Pool, t: Pool, w: nat) {
    && w < |s.workers| == |t.workers| && t.workers == s.workers[w := t.workers[w]]
    && t.cap == s.cap && t.next == s.next && t.producer == s.producer && t.peak == s.peak
    && |t.buffer| + t.workers[w].received == |s.buffer| + s.workers[w].received && |t.buffer| <= |s.buffer|
    && t.inFlight - |t.buffer| - Holding(t.workers[w]) == s.inFlight - |s.buffer| - Holding(s.workers[w])
  }

  lemma MovedKeepsCounts(params: Params, s: Pool, t: Pool, w: nat)
    requires CountsOk(params, s) && Moved(s, t, w)
    ensures CountsOk(params, t)
  {
    CountsOfUpdate(s.workers, w, t.workers[w]);
  }

  lemma WorkersMove(params: Params, s: Pool, a: Action)
    requires Enabled(params, s, a) && ByWorker(a)
    ensures Moved(s, Do(params, s, a), a.w)
  {
    hide NextCell;
  }

  lemma StepKeepsCounts(params: Params, s: Pool, a: Action)
    requires CountsOk(params, s) && Enabled(params, s, a)
    ensures CountsOk(params, Do(params, s, a))
  {
    hide NextCell, NextPhase, CanMove, Moved;
    if ByWorker(a) {
      WorkersMove(params, s, a);
      MovedKeepsCounts(params, s, Do(params, s, a), a.w);
    } else if a.Crash? {
      StartedCounts(a.cap);
    } else {
      HeldBound(s.workers);
    }
  }

  // ---- why nothing gets stuck ----

  predicate SomeCancelling(workers: seq<Worker>) {
    exists w | 0 <= w < |workers| :: workers[w].phase.Cancelling?
  }

  // A filled slot has cancelled the pool or is about to; a worker leaves only after
  // an error, at the end of the items, or at its own item limit.
  predicate SignalsOk(params: Params, s: Pool) {
    && (s.slot ==> s.cancelled || SomeCancelling(s.workers))
    && (s.cancelled ==> s.slot || s.stopped)
    && (forall w | 0 <= w < |s.workers| && s.workers[w].phase.Cancelling? :: s.slot)
    && (forall w | 0 <= w < |s.workers| && s.workers[w].phase.Exited? ::
          s.slot || (ChannelClosed(s) && s.buffer == []) || s.workers[w].received >= params.maxItems)
  }

  lemma CancellingKept(workers: seq<Worker>, w: nat, worker: Worker)
    requires w < |workers| && SomeCancelling(workers) && !workers[w].phase.Cancelling?
    ensures SomeCancelling(workers[w := worker])
  {
    var v :| 0 <= v < |workers| && workers[v].phase.Cancelling?;
    assert workers[w := worker][v].phase.Cancelling?;
  }

  lemma StepKeepsSignals(params: Params, s: Pool, a: Action)
    requires SignalsOk(params, s) && Enabled(params, s, a)
    ensures SignalsOk(params, Do(params, s, a))
  {
    if ByWorker(a) {
      WorkerKeepsSignals(params, s, a);
    }
  }

  lemma WorkerKeepsSignals(params: Params, s: Pool, a: Action)
    requires SignalsOk(params, s) && Enabled(params, s, a) && ByWorker(a)
    ensures SignalsOk(params, Do(params, s, a))
  {
    var t := Do(params, s, a);
    WorkersMove(params, s, a);
    if SomeCancelling(s.workers) && !a.Cancel? {
      CancellingKept(s.workers, a.w, t.workers[a.w]);
    }
    if a.Report? && !s.slot {
      assert t.workers[a.w].phase.Cancelling?;
    }
  }

  // Some step of the program itself can always be taken until the run is over,
  // also after errors and cancellation: no deadlock.
  lemma NoStuckState(params: Params, s: Pool, outcome: Result<string>)
    requires CountsOk(params, s) && SignalsOk(params, s) && params.items <= params.maxItems
    requires !s.producer.Finished?
    ensures exists a: Action :: !a.Stop? && !a.Crash? && Enabled(params, s, a)
  {
    if w :| 0 <= w < |s.workers| && !s.workers[w].phase.Waiting? && !s.workers[w].phase.Exited? {
      var a := OwnStep(s, w, outcome);
      assert Enabled(params, s, a);
    } else if s.producer.Scanning? {
      assert Enabled(params, s, Scan(true));
    } else if s.producer.Adding? {
      assert Enabled(params, s, Add);
    } else if s.producer.Peaking? {
      assert Enabled(params, s, Peak);
    } else if s.producer.Scanned? {
      assert Enabled(params, s, Close);
    } else if w :| 0 <= w < |s.workers| && s.workers[w].phase.Waiting? {
      assert s.producer.Sending? && |s.buffer| < s.cap ==> Enabled(params, s, Send);
      assert !(s.producer.Sending? && |s.buffer| < s.cap) ==> Enabled(params, s, Receive(w));
    } else if s.producer.Closed? {
      assert Enabled(params, s, Finish);
    } else {
      assert s.workers[0].phase.Exited?;
      CountsOfUpdate(s.workers, 0, s.workers[0]);
      assert Enabled(params, s, Withdraw);
    }
  }

  function OwnStep(s: Pool, w: nat, outcome: Result<string>): Action
    requires w < |s.workers|
  {
    match s.workers[w].phase
    case Looping(_, _) => Step(w, Check(s.cancelled))
    case Calling(_, _) => Step(w, Call)
    case Invoked(_, _) => Step(w, Return(outcome))
    case Releasing(_, _) => Release(w)
    case Reporting => Report(w)
    case Cancelling => Cancel(w)
    case _ => Step(w, Save(true))
  }

  // ---- every run ends ----

  function Left(maxAttempts: nat, attempts: nat): nat {
    if attempts < maxAttempts then maxAttempts - attempts else 0
  }

  // Steps a worker can still take by itself.
  function PhaseCost(maxAttempts: nat, phase: Phase): nat {
    match phase
    case Waiting => 1
    case Looping(_, st) => 5 + 5 * Left(maxAttempts, st.attempts)
    case Presaving(_, st) => 9 + 5 * Left(maxAttempts, st.attempts)
    case Calling(_, st) => 8 + 5 * Left(maxAttempts, st.attempts)
    case Invoked(_, st) => 7 + 5 * Left(maxAttempts, st.attempts)
    case Retrying(_, st) => 6 + 5 * Left(maxAttempts, st.attempts)
    case Saving(_, _) => 4
    case Releasing(_, _) => 3
    case Reporting => 2
    case Cancelling => 1
    case Exited => 0
  }

  function WorkersCost(maxAttempts: nat, workers: seq<Worker>): nat {
    if workers == [] then 0
    else WorkersCost(maxAttempts, workers[..|workers| - 1]) + PhaseCost(maxAttempts, workers[|workers| - 1].phase)
  }

  function ItemCost(maxAttempts: nat): nat {
    5 + 5 * maxAttempts
  }

  function Times(n: nat, cost: nat): nat {
    if n == 0 then 0 else Times(n - 1, cost) + cost
  }

  function ProducerCost(params: Params, s: Pool): nat {
    var item := ItemCost(params.maxAttempts);
    var left := if s.next < params.items then params.items - s.next else 0;
    var later := if left > 0 then left - 1 else 0;
    match s.producer
    case Scanning => 4 + Times(left, item + 4)
    case Adding(_) => 4 + Times(later, item + 4) + item + 3
    case Peaking(_, _) => 4 + Times(later, item + 4) + item + 2
    case Sending(_) => 4 + Times(later, item + 4) + item + 1
    case Scanned(_) => 3
    case Closed(_) => 2
    case Finished(_) => 0
  }

  function Cost(params: Params, s: Pool): nat {
    ProducerCost(params, s) + Times(|s.buffer|, ItemCost(params.maxAttempts))
    + WorkersCost(params.maxAttempts, s.workers)
    + (if s.stopped then 0 else 1)
  }

  lemma {:induction false} WorkersCostUpdate(maxAttempts: nat, workers: seq<Worker>, w: nat, worker: Worker)
    requires w < |workers|
    ensures WorkersCost(maxAttempts, workers[w := worker]) + PhaseCost(maxAttempts, workers[w].phase)
            == WorkersCost(maxAttempts, workers) + PhaseCost(maxAttempts, worker.phase)
  {
    var n := |workers| - 1;
    var updated := workers[w := worker];
    if w < n {
      WorkersCostUpdate(maxAttempts, workers[..n], w, worker);
      assert updated[..n] == workers[..n][w := worker];
    } else {
      assert updated[..n] == workers[..n];
    }
  }

  lemma MoveCostsLess(maxAttempts: nat, phase: Phase, e: Event)
    requires CanMove(phase, e)
    ensures PhaseCost(maxAttempts, NextPhase(maxAttempts, phase, e)) < PhaseCost(maxAttempts, phase)
  {
  }

  lemma MoveAndBufferCostLess(params: Params, s: Pool, a: Action)
    requires Enabled(params, s, a) && ByWorker(a)
    ensures
      var t, m := Do(params, s, a), params.maxAttempts;
      PhaseCost(m, t.workers[a.w].phase) + Times(|t.buffer|, ItemCost(m))
      < PhaseCost(m, s.workers[a.w].phase) + Times(|s.buffer|, ItemCost(m))
  {
    if a.Step? {
      MoveCostsLess(params.maxAttempts, s.workers[a.w].phase, a.event);
    }
  }

  lemma WorkerStepsCostLess(params: Params, s: Pool, a: Action)
    requires Enabled(params, s, a) && ByWorker(a)
    ensures Cost(params, Do(params, s, a)) < Cost(params, s)
  {
    var t := Do(params, s, a);
    WorkersMove(params, s, a);
    WorkersCostUpdate(params.maxAttempts, s.workers, a.w, t.workers[a.w]);
    MoveAndBufferCostLess(params, s, a);
    assert t.stopped == s.stopped;
  }

  // Apart from a restart, every step uses something up.
  lemma StepCostsLess(params: Params, s: Pool, a: Action)
    requires CountsOk(params, s) && Enabled(params, s, a) && !a.Crash?
    ensures Cost(params, Do(params, s, a)) < Cost(params, s)
  {
    hide CountsOk, WorkersCost, PhaseCost, NextPhase, NextCell, CanMove;
    if ByWorker(a) {
      WorkerStepsCostLess(params, s, a);
    }
  }

  // ---- runs ----

  ghost predicate Run(params: Params, s: Pool, actions: seq<Action>, t: Pool)
    decreases |actions|
  {
    if actions == [] then s == t
    else Enabled(params, s, actions[0]) && Run(params, Do(params, s, actions[0]), actions[1..], t)
  }

  predicate CrashFree(actions: seq<Action>) {
    forall i | 0 <= i < |actions| :: !actions[i].Crash?
  }

  lemma FreshOk(params: Params, cap: nat)
    requires cap > 0
    ensures CountsOk(params, Fresh(params, cap)) && SignalsOk(params, Fresh(params, cap))
  {
    StartedCounts(cap);
  }

  lemma {:induction false} RunKeepsControl(params: Params, s: Pool, actions: seq<Action>, t: Pool)
    requires CountsOk(params, s) && SignalsOk(params, s) && Run(params, s, actions, t)
    ensures CountsOk(params, t) && SignalsOk(params, t)
    decreases |actions|
  {
    if actions != [] {
      StepKeepsCounts(params, s, actions[0]);
      StepKeepsSignals(params, s, actions[0]);
      RunKeepsControl(params, Do(params, s, actions[0]), actions[1..], t);
    }
  }

  // In every reachable state, through crashes, errors and cancellation: the counter
  // says exactly what is in flight, its peak stays within twice the concurrency
  // plus one, and unless the run is over some step of the program can be taken.
  lemma PoolInvariant(params: Params, cap: nat, actions: seq<Action>, s: Pool, outcome: Result<string>)
    requires cap > 0 && params.items <= params.maxItems && Run(params, Fresh(params, cap), actions, s)
    ensures s.inFlight == |s.buffer| + Held(s.workers) + ProducerHolds(s) && |s.buffer| <= s.cap
    ensures Held(s.workers) <= s.cap
    ensures s.inFlight <= 2 * s.cap + 1 && s.peak <= 2 * s.cap + 1
    ensures s.producer.Finished? || exists a: Action :: !a.Stop? && !a.Crash? && Enabled(params, s, a)
  {
    FreshOk(params, cap);
    RunKeepsControl(params, Fresh(params, cap), actions, s);
    HeldBound(s.workers);
    if !s.producer.Finished? {
      NoStuckState(params, s, outcome);
    }
  }

  // Between two crashes a run takes a bounded number of steps.
  lemma {:induction false} RunsEnd(params: Params, s: Pool, actions: seq<Action>, t: Pool)
    requires CountsOk(params, s) && Run(params, s, actions, t) && CrashFree(actions)
    ensures |actions| + Cost(params, t) <= Cost(params, s)
    decreases |actions|
  {
    if actions != [] {
      StepKeepsCounts(params, s, actions[0]);
      StepCostsLess(params, s, actions[0]);
      assert forall i | 0 <= i < |actions[1..]| :: actions[1..][i] == actions[i + 1];
      RunsEnd(params, Do(params, s, actions[0]), actions[1..], t);
    }
  }
}
