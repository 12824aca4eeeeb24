// What a map run that reports success has done: every item is settled, and under
// lossless interruptions exactly as an uninterrupted sequential run settles it.
module MapOutcome {
  import opened Core
  import opened MapItem
  import opened MapPool
  import opened MapResume

  // ---- no item is dropped unnoticed ----

  predicate SomeReporting(workers: seq<Worker>) {
    exists w | 0 <= w < |workers| :: workers[w].phase.Reporting?
  }

  // The run will not report success.
  predicate Troubled(s: Pool) {
    s.slot || s.stopped || SomeReporting(s.workers)
  }

  predicate Accounted(s: Pool, i: nat)
    requires i < |s.cells|
  {
    Settled(s.cells[i]) || HeldBy(s.workers, i) || Buffered(s.buffer, i) || Troubled(s)
  }

  // A worker lets an unsettled item go without an error only when cancelled.
  predicate LeavesOk(s: Pool, w: nat)
    requires w < |s.workers|
  {
    match s.workers[w].phase
    case Saving(_, st) => st.status == Running ==> s.cancelled
    case Releasing(i, failed) => failed || s.cancelled || (i < |s.cells| && Settled(s.cells[i]))
    case _ => true
  }

  predicate CoverOk(s: Pool) {
    && s.next <= |s.cells|
    && (forall i | 0 <= i < s.next :: Accounted(s, i))
    && (forall w | 0 <= w < |s.workers| :: LeavesOk(s, w))
    && (s.producer.Finished? ==> forall w | 0 <= w < |s.workers| :: s.workers[w].phase.Exited?)
  }

  predicate AllOk(params: Params, s: Pool) {
    CountsOk(params, s) && SignalsOk(params, s) && OwnersOk(params, s)
  }

  lemma HeldKept(workers: seq<Worker>, w: nat, worker: Worker, i: nat)
    requires w < |workers| && HeldBy(workers, i) && (HoldsItem(workers[w], i) ==> HoldsItem(worker, i))
    ensures HeldBy(workers[w := worker], i)
  {
    var v :| 0 <= v < |workers| && HoldsItem(workers[v], i);
    assert HoldsItem(workers[w := worker][v], i);
  }

  lemma StepKeepsCover(params: Params, s: Pool, w: nat, e: Event)
    requires AllOk(params, s) && CoverOk(s) && Enabled(params, s, Step(w, e))
    ensures CoverOk(AfterStep(params, s, w, e))
  {
    var t := AfterStep(params, s, w, e);
    StepItem(params, s, w, e);
    forall i | 0 <= i < t.next
      ensures Accounted(t, i)
    {
      assert Accounted(s, i);
      if HoldsItem(s.workers[w], i) {
        assert HoldsItem(t.workers[w], i);
      } else if HeldBy(s.workers, i) {
        HeldKept(s.workers, w, t.workers[w], i);
      }
      TroubleKept(s, t, w);
    }
    forall v | 0 <= v < |t.workers|
      ensures LeavesOk(t, v)
    {
      assert LeavesOk(s, v) && WorkerOk(params, s, v);
    }
  }

  lemma TroubleKept(s: Pool, t: Pool, w: nat)
    requires w < |s.workers| == |t.workers| && t.workers == s.workers[w := t.workers[w]]
    requires s.slot ==> t.slot
    requires s.stopped ==> t.stopped
    requires s.workers[w].phase.Reporting? ==> t.slot
    ensures Troubled(s) ==> Troubled(t)
  {
    if v :| 0 <= v < |s.workers| && s.workers[v].phase.Reporting? {
      assert v != w ==> t.workers[v].phase.Reporting?;
    }
  }

  lemma OthersKeepCover(params: Params, s: Pool, a: Action)
    requires AllOk(params, s) && CoverOk(s) && Enabled(params, s, a) && (a.Release? || a.Report? || a.Cancel?)
    ensures CoverOk(Do(params, s, a))
  {
    var t, w := Do(params, s, a), a.w;
    TroubleKept(s, t, w);
    assert LeavesOk(s, w);
    assert a.Release? && s.workers[w].phase.failed ==> t.workers[w].phase.Reporting?;
    forall i | 0 <= i < t.next
      ensures Accounted(t, i)
    {
      assert Accounted(s, i);
      if HeldBy(s.workers, i) && !HoldsItem(s.workers[w], i) {
        HeldKept(s.workers, w, t.workers[w], i);
      }
    }
    forall v | 0 <= v < |t.workers|
      ensures LeavesOk(t, v)
    {
      assert LeavesOk(s, v);
    }
  }

  lemma ReceiveKeepsCover(params: Params, s: Pool, w: nat)
    requires AllOk(params, s) && CoverOk(s) && Enabled(params, s, Receive(w))
    ensures CoverOk(AfterReceive(params, s, w))
  {
    var t := AfterReceive(params, s, w);
    TroubleKept(s, t, w);
    forall i | 0 <= i < t.next
      ensures Accounted(t, i)
    {
      assert Accounted(s, i);
      if HeldBy(s.workers, i) {
        HeldKept(s.workers, w, t.workers[w], i);
      }
      if Buffered(s.buffer, i) {
        var j :| 0 <= j < |s.buffer| && s.buffer[j].index == i;
        if t.buffer != s.buffer {
          assert j > 0 ==> t.buffer[j - 1].index == i;
          assert j == 0 ==> HoldsItem(t.workers[w], i);
        }
      }
    }
    forall v | 0 <= v < |t.workers|
      ensures LeavesOk(t, v)
    {
      assert LeavesOk(s, v);
    }
  }

  lemma ProducerKeepsCover(params: Params, s: Pool, a: Action)
    requires AllOk(params, s) && CoverOk(s) && Enabled(params, s, a) && !ByWorker(a) && !a.Crash?
    ensures CoverOk(Do(params, s, a))
  {
    hide WorkerOk, FileOk, BufferOk, OneOwner;
    var t := Do(params, s, a);
    forall i | 0 <= i < t.next
      ensures Accounted(t, i)
    {
      if i < s.next {
        assert Accounted(s, i);
        if Buffered(s.buffer, i) {
          var j :| 0 <= j < |s.buffer| && s.buffer[j].index == i;
          assert t.buffer[j].index == i;
        }
      } else if a.Send? {
        assert t.buffer[|s.buffer|].index == i;
      }
    }
    forall v | 0 <= v < |t.workers|
      ensures LeavesOk(t, v)
    {
      assert LeavesOk(s, v);
    }
  }

  lemma ActionKeepsCover(params: Params, s: Pool, a: Action)
    requires AllOk(params, s) && CoverOk(s) && Enabled(params, s, a)
    ensures CoverOk(Do(params, s, a))
  {
    if a.Step? {
      StepKeepsCover(params, s, a.w, a.event);
    } else if a.Receive? {
      ReceiveKeepsCover(params, s, a.w);
    } else if ByWorker(a) {
      OthersKeepCover(params, s, a);
    } else if !a.Crash? {
      ProducerKeepsCover(params, s, a);
    }
  }

  lemma ActionKeepsAll(params: Params, s: Pool, a: Action)
    requires AllOk(params, s) && CoverOk(s) && Enabled(params, s, a)
    ensures AllOk(params, Do(params, s, a)) && CoverOk(Do(params, s, a))
  {
    StepKeepsCounts(params, s, a);
    StepKeepsSignals(params, s, a);
    StepKeepsOwners(params, s, a);
    ActionKeepsCover(params, s, a);
  }

  lemma {:induction false} RunKeepsAll(params: Params, s: Pool, actions: seq<Action>, t: Pool)
    requires AllOk(params, s) && CoverOk(s) && Run(params, s, actions, t)
    ensures AllOk(params, t) && CoverOk(t)
    decreases |actions|
  {
    if actions != [] {
      ActionKeepsAll(params, s, actions[0]);
      RunKeepsAll(params, Do(params, s, actions[0]), actions[1..], t);
    }
  }

  lemma FreshAllOk(params: Params, cap: nat)
    requires cap > 0
    ensures AllOk(params, Fresh(params, cap)) && CoverOk(Fresh(params, cap))
  {
    FreshOk(params, cap);
    FreshOwners(params, cap);
  }

  lemma SucceededSettles(params: Params, s: Pool, i: nat)
    requires AllOk(params, s) && CoverOk(s) && params.items <= params.maxItems
    requires Succeeded(s) && i < params.items
    ensures Settled(s.cells[i]) && !HeldBy(s.workers, i)
  {
    assert s.workers[0].phase.Exited?;
    CountsOfUpdate(s.workers, 0, s.workers[0]);
    assert Accounted(s, i);
  }

  // A pool that finishes without error leaves a settled file for every item, so the
  // assembly of the output finds them all.
  lemma SuccessSettlesAll(params: Params, cap: nat, actions: seq<Action>, s: Pool)
    requires cap > 0 && params.items <= params.maxItems
    requires Run(params, Fresh(params, cap), actions, s) && Succeeded(s)
    ensures |s.cells| == params.items && forall i | 0 <= i < params.items :: Settled(s.cells[i])
  {
    FreshAllOk(params, cap);
    RunKeepsAll(params, Fresh(params, cap), actions, s);
    forall i | 0 <= i < params.items
      ensures Settled(s.cells[i])
    {
      SucceededSettles(params, s, i);
    }
  }

  // ---- the schedule does not matter ----

  // The processor answers as a function, no crash comes between the save before a
  // call and the save after it, and no write of a result fails.
  predicate Lossless(process: Processor, s: Pool, a: Action) {
    match a
    case Step(w, e) => w < |s.workers| && CanMove(s.workers[w].phase, e) ==> Faithful(process, s.workers[w].phase, e)
    case Crash(_) => forall w | 0 <= w < |s.workers| :: !Pending(s.workers[w].phase)
    case _ => true
  }

  ghost predicate LosslessRun(process: Processor, params: Params, s: Pool, actions: seq<Action>)
    decreases |actions|
  {
    actions == []
    || (Lossless(process, s, actions[0]) && Enabled(params, s, actions[0])
        && LosslessRun(process, params, Do(params, s, actions[0]), actions[1..]))
  }

  ghost predicate CourseAt(process: Processor, params: Params, s: Pool, w: nat)
    requires w < |s.workers|
  {
    var phase := s.workers[w].phase;
    phase.Holds() ==>
      phase.index < |s.cells| && WorkerOnCourse(process, params.maxAttempts, s.cells[phase.index], phase)
  }

  ghost predicate FileOnCourse(process: Processor, params: Params, s: Pool, i: nat)
    requires i < |s.cells|
  {
    HeldBy(s.workers, i) || OnCourse(process, params.maxAttempts, i, s.cells[i])
  }

  ghost predicate CourseOk(process: Processor, params: Params, s: Pool) {
    && (forall i | 0 <= i < |s.cells| :: FileOnCourse(process, params, s, i))
    && (forall w | 0 <= w < |s.workers| :: CourseAt(process, params, s, w))
  }

  lemma StepKeepsCourse(process: Processor, params: Params, s: Pool, w: nat, e: Event)
    requires OwnersOk(params, s) && CourseOk(process, params, s) && Enabled(params, s, Step(w, e))
    requires Lossless(process, s, Step(w, e))
    ensures CourseOk(process, params, AfterStep(params, s, w, e))
  {
    var t := AfterStep(params, s, w, e);
    var phase := s.workers[w].phase;
    StepItem(params, s, w, e);
    assert WorkerOk(params, s, w) && CourseAt(process, params, s, w) && FileOk(params, s, phase.index);
    MoveKeepsCourse(process, params.maxAttempts, s.cells[phase.index], phase, e);
    forall v | 0 <= v < |t.workers|
      ensures CourseAt(process, params, t, v)
    {
      assert CourseAt(process, params, s, v);
    }
    forall i | 0 <= i < |t.cells|
      ensures FileOnCourse(process, params, t, i)
    {
      assert FileOnCourse(process, params, s, i);
      if HoldsItem(s.workers[w], i) {
        assert HoldsItem(t.workers[w], i);
      } else if HeldBy(s.workers, i) {
        HeldKept(s.workers, w, t.workers[w], i);
      }
    }
  }

  lemma ReceiveKeepsCourse(process: Processor, params: Params, s: Pool, w: nat)
    requires OwnersOk(params, s) && CourseOk(process, params, s) && Enabled(params, s, Receive(w))
    ensures CourseOk(process, params, AfterReceive(params, s, w))
  {
    var t := AfterReceive(params, s, w);
    if s.buffer != [] {
      var i := s.buffer[0].index;
      assert QueuedOk(s, s.buffer[0]) && FileOnCourse(process, params, s, i);
      forall v | 0 <= v < |s.workers|
        ensures !HoldsItem(s.workers[v], i)
      {
        assert WorkerOk(params, s, v);
      }
    }
    forall v | 0 <= v < |t.workers|
      ensures CourseAt(process, params, t, v)
    {
      assert CourseAt(process, params, s, v);
    }
    forall i | 0 <= i < |t.cells|
      ensures FileOnCourse(process, params, t, i)
    {
      assert FileOnCourse(process, params, s, i);
      if HeldBy(s.workers, i) {
        HeldKept(s.workers, w, t.workers[w], i);
      }
    }
  }

  lemma OthersKeepCourse(process: Processor, params: Params, s: Pool, a: Action)
    requires OwnersOk(params, s) && CourseOk(process, params, s) && Enabled(params, s, a)
    requires a.Release? || a.Report? || a.Cancel?
    ensures CourseOk(process, params, Do(params, s, a))
  {
    var t, w := Do(params, s, a), a.w;
    assert CourseAt(process, params, s, w);
    forall v | 0 <= v < |t.workers|
      ensures CourseAt(process, params, t, v)
    {
      assert CourseAt(process, params, s, v);
    }
    forall i | 0 <= i < |t.cells|
      ensures FileOnCourse(process, params, t, i)
    {
      assert FileOnCourse(process, params, s, i);
      if HeldBy(s.workers, i) && !HoldsItem(s.workers[w], i) {
        HeldKept(s.workers, w, t.workers[w], i);
      }
    }
  }

  lemma CrashKeepsCourse(process: Processor, params: Params, s: Pool, cap: nat)
    requires CourseOk(process, params, s) && Lossless(process, s, Crash(cap))
    ensures CourseOk(process, params, Started(cap, s.cells, s.calls))
  {
    var t := Started(cap, s.cells, s.calls);
    forall i | 0 <= i < |t.cells|
      ensures FileOnCourse(process, params, t, i)
    {
      assert FileOnCourse(process, params, s, i);
      if HeldBy(s.workers, i) {
        var v :| 0 <= v < |s.workers| && HoldsItem(s.workers[v], i);
        assert CourseAt(process, params, s, v);
      }
    }
  }

  lemma ActionKeepsCourse(process: Processor, params: Params, s: Pool, a: Action)
    requires OwnersOk(params, s) && CourseOk(process, params, s) && Enabled(params, s, a) && Lossless(process, s, a)
    ensures CourseOk(process, params, Do(params, s, a))
  {
    if a.Step? {
      StepKeepsCourse(process, params, s, a.w, a.event);
    } else if a.Receive? {
      ReceiveKeepsCourse(process, params, s, a.w);
    } else if ByWorker(a) {
      OthersKeepCourse(process, params, s, a);
    } else if a.Crash? {
      CrashKeepsCourse(process, params, s, a.cap);
    } else {
      ProducerKeepsCourse(process, params, s, Do(params, s, a));
    }
  }

  lemma ProducerKeepsCourse(process: Processor, params: Params, s: Pool, t: Pool)
    requires CourseOk(process, params, s) && t.cells == s.cells && t.workers == s.workers
    ensures CourseOk(process, params, t)
  {
    forall i | 0 <= i < |t.cells|
      ensures FileOnCourse(process, params, t, i)
    {
      assert FileOnCourse(process, params, s, i);
    }
    forall v | 0 <= v < |t.workers|
      ensures CourseAt(process, params, t, v)
    {
      assert CourseAt(process, params, s, v);
    }
  }

  lemma {:induction false} RunKeepsCourse(process: Processor, params: Params, s: Pool, actions: seq<Action>, t: Pool)
    requires OwnersOk(params, s) && CourseOk(process, params, s) && Run(params, s, actions, t)
    requires LosslessRun(process, params, s, actions)
    ensures CourseOk(process, params, t)
    decreases |actions|
  {
    if actions != [] {
      StepKeepsOwners(params, s, actions[0]);
      ActionKeepsCourse(process, params, s, actions[0]);
      RunKeepsCourse(process, params, Do(params, s, actions[0]), actions[1..], t);
    }
  }

  // Interrupted and resumed any number of times without losing a result, under any
  // schedule and any concurrency, a run that succeeds leaves every item exactly as
  // one worker processing it without interruption would.
  lemma SameAsSequential(process: Processor, params: Params, cap: nat, actions: seq<Action>, s: Pool)
    requires cap > 0 && params.items <= params.maxItems
    requires Run(params, Fresh(params, cap), actions, s) && Succeeded(s)
    requires LosslessRun(process, params, Fresh(params, cap), actions)
    ensures |s.cells| == params.items
    ensures forall i | 0 <= i < params.items :: s.cells[i] == Some(Final(process, params.maxAttempts, i, 0, ""))
  {
    var origin := Fresh(params, cap);
    FreshAllOk(params, cap);
    RunKeepsAll(params, origin, actions, s);
    forall i | 0 <= i < |origin.cells|
      ensures FileOnCourse(process, params, origin, i)
    {
    }
    RunKeepsCourse(process, params, origin, actions, s);
    forall i | 0 <= i < params.items
      ensures s.cells[i] == Some(Final(process, params.maxAttempts, i, 0, ""))
    {
      SucceededSettles(params, s, i);
      assert FileOnCourse(process, params, s, i);
    }
  }
}
