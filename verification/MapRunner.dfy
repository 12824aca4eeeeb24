// The runner's own code for one item and for the published output, proved to take
// the pool's steps.
module MapRunner {
  import opened Core
  import opened MapItem
  import MapPool
  import MapResume

  const MAX_ERROR_LENGTH := 4096

  class StateStore {
    var cells: seq<Cell>

    constructor (items: nat)
      ensures cells == seq(items, _ => None)
    {
      cells := seq(items, _ => None);
    }

    method Load(index: nat) returns (cell: Cell)
      requires index < |cells|
      ensures cell == cells[index]
    {
      return cells[index];
    }

    // An atomic write: the file is replaced whole or, when the disk fails, not at all.
    method Save(index: nat, st: ItemState, broken: bool) returns (ok: bool)
      requires index < |cells|
      modifies this
      ensures ok == !broken
      ensures cells == if ok then old(cells)[index := Some(st)] else old(cells)
    {
      ok := !broken;
      if ok {
        cells := cells[index := Some(st)];
      }
    }
  }

  method ResumableWork(store: StateStore, index: nat) returns (work: Option<Work>)
    requires index < |store.cells|
    ensures work == Resumable(index, store.cells[index])
    ensures work.None? <==> Settled(store.cells[index])
  {
    var cell := store.Load(index);
    if cell.None? {
      return Some(Work(index, 0, ""));
    }
    if cell.value.status == Completed || cell.value.status == Failed {
      return None;
    }
    return Some(Work(index, cell.value.attempts, cell.value.error));
  }

  // ---- one item ----

  datatype Snapshot = Snapshot(cell: Cell, phase: Phase)

  // A worker's step and the moment it was taken at.
  datatype Move = Move(at: nat, event: Event)

  ghost predicate Follows(maxAttempts: nat, from: Snapshot, e: Event, after: Snapshot) {
    && CanMove(from.phase, e)
    && after == Snapshot(NextCell(from.cell, from.phase, e), NextPhase(maxAttempts, from.phase, e))
  }

  // Consecutive snapshots, each the worker step that its move names.
  ghost predicate Walk(maxAttempts: nat, trail: seq<Snapshot>, moves: seq<Move>) {
    && |trail| == |moves| + 1
    && forall k | 0 <= k < |moves| :: Follows(maxAttempts, trail[k], moves[k].event, trail[k + 1])
  }

  lemma {:induction false} WalkKeepsOk(maxAttempts: nat, trail: seq<Snapshot>, moves: seq<Move>, k: nat)
    requires Walk(maxAttempts, trail, moves) && k <= |moves|
    requires CellOk(maxAttempts, trail[0].cell) && PhaseOk(maxAttempts, trail[0].cell, trail[0].phase)
    ensures CellOk(maxAttempts, trail[k].cell) && PhaseOk(maxAttempts, trail[k].cell, trail[k].phase)
    ensures CellGrows(trail[0].cell, trail[k].cell)
    decreases k
  {
    if k > 0 {
      assert Follows(maxAttempts, trail[k - 1], moves[k - 1].event, trail[k]);
      WalkKeepsOk(maxAttempts, trail, moves, k - 1);
      MoveKeepsOk(maxAttempts, trail[k - 1].cell, trail[k - 1].phase, moves[k - 1].event);
    }
  }

  ghost predicate FaithfulWalk(process: Processor, trail: seq<Snapshot>, moves: seq<Move>)
    requires |trail| == |moves| + 1
  {
    forall k | 0 <= k < |moves| :: FaithfulAt(process, trail, moves, k)
  }

  ghost predicate FaithfulAt(process: Processor, trail: seq<Snapshot>, moves: seq<Move>, k: nat)
    requires |trail| == |moves| + 1 && k < |moves|
  {
    var e := moves[k].event;
    e != Check(true) && CanMove(trail[k].phase, e) && Faithful(process, trail[k].phase, e)
  }

  lemma {:induction false} WalkKeepsCourse(process: Processor, maxAttempts: nat, trail: seq<Snapshot>,
                                           moves: seq<Move>, index: nat, k: nat)
    requires Walk(maxAttempts, trail, moves) && FaithfulWalk(process, trail, moves) && k <= |moves|
    requires CellOk(maxAttempts, trail[0].cell) && PhaseOk(maxAttempts, trail[0].cell, trail[0].phase)
    requires trail[0].phase.Looping? && trail[0].phase.index == index
    requires OnCourse(process, maxAttempts, index, trail[0].cell)
    ensures trail[k].phase.Holds() && trail[k].phase.index == index
    ensures WorkerOnCourse(process, maxAttempts, trail[k].cell, trail[k].phase)
    ensures trail[k].phase.Saving? ==> trail[k].phase.st.status != Running
    decreases k
  {
    if k > 0 {
      var e := moves[k - 1].event;
      assert Follows(maxAttempts, trail[k - 1], e, trail[k]) && FaithfulAt(process, trail, moves, k - 1);
      WalkKeepsCourse(process, maxAttempts, trail, moves, index, k - 1);
      WalkKeepsOk(maxAttempts, trail, moves, k - 1);
      MoveKeepsCourse(process, maxAttempts, trail[k - 1].cell, trail[k - 1].phase, e);
    }
  }

  // Left alone, a worker that starts on a file that is on course settles the item as
  // the sequential run does.
  lemma WalkReachesFinal(process: Processor, maxAttempts: nat, trail: seq<Snapshot>, moves: seq<Move>, work: Work)
    requires Walk(maxAttempts, trail, moves) && FaithfulWalk(process, trail, moves)
    requires CellOk(maxAttempts, trail[0].cell) && Resumable(work.index, trail[0].cell) == Some(work)
    requires trail[0].phase == Start(work) && OnCourse(process, maxAttempts, work.index, trail[0].cell)
    requires trail[|moves|].phase.Saving?
    ensures trail[|moves|].phase.st == Final(process, maxAttempts, work.index, 0, "")
  {
    WalkKeepsCourse(process, maxAttempts, trail, moves, work.index, |moves|);
    WalkKeepsOk(maxAttempts, trail, moves, |moves|);
  }

  // ---- the walk inside the pool ----

  // Worker w of the pool stands where the snapshot says, with that file.
  ghost predicate StandsAt(s: MapPool.Pool, w: nat, at: Snapshot) {
    && w < |s.workers| && s.workers[w].phase == at.phase && at.phase.Holds()
    && at.phase.index < |s.cells| == |s.calls| && s.cells[at.phase.index] == at.cell
  }

  // A step of the walk is an enabled step of the pool, taken with the pool's own cancel
  // flag, and leads the worker and its file where the walk goes.
  lemma StepIsPools(params: MapPool.Params, s: MapPool.Pool, w: nat, from: Snapshot, e: Event, after: Snapshot)
    requires Follows(params.maxAttempts, from, e, after) && StandsAt(s, w, from)
    requires e.Check? ==> e.cancelled == s.cancelled
    ensures MapPool.Enabled(params, s, MapPool.Step(w, e))
    ensures
      var t := MapPool.Do(params, s, MapPool.Step(w, e));
      && StandsAt(t, w, after) && t.cancelled == s.cancelled
      && t.workers == s.workers[w := t.workers[w]] && t.cells == s.cells[from.phase.index := after.cell]
      && t.calls == if e.Call? then s.calls[from.phase.index := s.calls[from.phase.index] + 1] else s.calls
  {
  }

  // The worker an action belongs to; a crash takes them all.
  predicate Moves(a: MapPool.Action, w: nat) {
    a.Crash? || (MapPool.ByWorker(a) && a.w == w)
  }

  lemma OtherLeavesWorker(params: MapPool.Params, s: MapPool.Pool, a: MapPool.Action, w: nat, at: Snapshot)
    requires MapResume.OwnersOk(params, s) && StandsAt(s, w, at) && MapPool.Enabled(params, s, a) && !Moves(a, w)
    ensures StandsAt(MapPool.Do(params, s, a), w, at)
  {
    if a.Step? {
      MapResume.StepItem(params, s, a.w, a.event);
    }
  }

  // While a worker holds an item, nothing the producer and the other workers do moves
  // it or touches the item's file, so its own steps can be followed on their own.
  lemma {:induction false} OthersLeaveWorker(params: MapPool.Params, s: MapPool.Pool, actions: seq<MapPool.Action>,
                                             t: MapPool.Pool, w: nat, at: Snapshot)
    requires MapResume.OwnersOk(params, s) && StandsAt(s, w, at) && MapPool.Run(params, s, actions, t)
    requires forall i | 0 <= i < |actions| :: !Moves(actions[i], w)
    ensures MapResume.OwnersOk(params, t) && StandsAt(t, w, at)
    decreases |actions|
  {
    if actions != [] {
      var u := MapPool.Do(params, s, actions[0]);
      OtherLeavesWorker(params, s, actions[0], w, at);
      MapResume.StepKeepsOwners(params, s, actions[0]);
      assert forall i | 0 <= i < |actions[1..]| :: actions[1..][i] == actions[i + 1];
      OthersLeaveWorker(params, u, actions[1..], t, w, at);
    }
  }

  // The worker's steps with what the others do after each.
  function Interleave(w: nat, moves: seq<Move>, gaps: seq<seq<MapPool.Action>>): seq<MapPool.Action>
    requires |gaps| == |moves|
  {
    if moves == [] then []
    else [MapPool.Step(w, moves[0].event)] + (gaps[0] + Interleave(w, moves[1..], gaps[1..]))
  }

  // The pool's cancel flag is what the step saw, and from the state the step leads to,
  // if it may be taken, the others run on to the next state.
  ghost predicate Between(params: MapPool.Params, s: MapPool.Pool, w: nat, e: Event, gap: seq<MapPool.Action>,
                          u: MapPool.Pool)
  {
    && (e.Check? ==> e.cancelled == s.cancelled)
    && (forall i | 0 <= i < |gap| :: !Moves(gap[i], w))
    && (MapPool.Enabled(params, s, MapPool.Step(w, e)) ==>
          MapPool.Run(params, MapPool.Do(params, s, MapPool.Step(w, e)), gap, u))
  }

  lemma {:induction false} RunOn(params: MapPool.Params, s: MapPool.Pool, before: seq<MapPool.Action>, t: MapPool.Pool,
                                 after: seq<MapPool.Action>, u: MapPool.Pool)
    requires MapPool.Run(params, s, before, t) && MapPool.Run(params, t, after, u)
    ensures MapPool.Run(params, s, before + after, u)
    decreases |before|
  {
    if before == [] {
      assert before + after == after;
    } else {
      RunOn(params, MapPool.Do(params, s, before[0]), before[1..], t, after, u);
      assert (before + after)[1..] == before[1..] + after;
    }
  }

  // Whatever the producer and the other workers do between its steps, a walk is part of
  // a run of the pool, which ends with the worker and its file where the walk ends.
  lemma {:induction false} WalkIsRun(params: MapPool.Params, w: nat, trail: seq<Snapshot>, moves: seq<Move>,
                                     pools: seq<MapPool.Pool>, gaps: seq<seq<MapPool.Action>>)
    requires Walk(params.maxAttempts, trail, moves) && |pools| == |moves| + 1 && |gaps| == |moves|
    requires MapResume.OwnersOk(params, pools[0]) && StandsAt(pools[0], w, trail[0])
    requires forall k | 0 <= k < |moves| :: Between(params, pools[k], w, moves[k].event, gaps[k], pools[k + 1])
    ensures MapPool.Run(params, pools[0], Interleave(w, moves, gaps), pools[|moves|])
    ensures StandsAt(pools[|moves|], w, trail[|moves|])
    decreases |moves|
  {
    if moves != [] {
      var e := moves[0].event;
      assert Follows(params.maxAttempts, trail[0], e, trail[1]);
      assert Between(params, pools[0], w, e, gaps[0], pools[1]);
      StepIsPools(params, pools[0], w, trail[0], e, trail[1]);
      var t := MapPool.Do(params, pools[0], MapPool.Step(w, e));
      MapResume.StepKeepsOwners(params, pools[0], MapPool.Step(w, e));
      OthersLeaveWorker(params, t, gaps[0], pools[1], w, trail[1]);
      RestOfWalk(params, w, trail, moves, pools, gaps);
      WalkIsRun(params, w, trail[1..], moves[1..], pools[1..], gaps[1..]);
      var rest := Interleave(w, moves[1..], gaps[1..]);
      RunOn(params, t, gaps[0], pools[1], rest, pools[|moves|]);
      assert ([MapPool.Step(w, e)] + (gaps[0] + rest))[1..] == gaps[0] + rest;
    }
  }

  lemma RestOfWalk(params: MapPool.Params, w: nat, trail: seq<Snapshot>, moves: seq<Move>,
                   pools: seq<MapPool.Pool>, gaps: seq<seq<MapPool.Action>>)
    requires moves != [] && Walk(params.maxAttempts, trail, moves) && |pools| == |moves| + 1 && |gaps| == |moves|
    requires forall k | 0 <= k < |moves| :: Between(params, pools[k], w, moves[k].event, gaps[k], pools[k + 1])
    ensures Walk(params.maxAttempts, trail[1..], moves[1..])
    ensures forall k | 0 <= k < |moves[1..]| ::
      Between(params, pools[1..][k], w, moves[1..][k].event, gaps[1..][k], pools[1..][k + 1])
  {
    forall k | 0 <= k < |moves[1..]|
      ensures Follows(params.maxAttempts, trail[1..][k], moves[1..][k].event, trail[1..][k + 1])
      ensures Between(params, pools[1..][k], w, moves[1..][k].event, gaps[1..][k], pools[1..][k + 1])
    {
      assert Follows(params.maxAttempts, trail[k + 1], moves[k + 1].event, trail[k + 2]);
      assert Between(params, pools[k + 1], w, moves[k + 1].event, gaps[k + 1], pools[k + 2]);
    }
  }

  class Mapper {
    const maxAttempts: nat
    const maxOutputLength: nat
    // Answers may depend on the moment, so equal requests may get different answers.
    const process: (nat, string, nat, string) -> Result<string>
    const validate: string -> Option<string>
    // When the context is done and when a write fails.
    const cancelledAt: nat -> bool
    const brokenAt: nat -> bool
    var now: nat

    constructor (maxAttempts: nat, maxOutputLength: nat, process: (nat, string, nat, string) -> Result<string>,
                 validate: string -> Option<string>, cancelledAt: nat -> bool, brokenAt: nat -> bool)
    {
      this.maxAttempts, this.maxOutputLength, this.process := maxAttempts, maxOutputLength, process;
      this.validate, this.cancelledAt, this.brokenAt := validate, cancelledAt, brokenAt;
      now := 0;
    }

    function BoundedError(error: string): string {
      if |error| > MAX_ERROR_LENGTH then error[..MAX_ERROR_LENGTH] else error
    }

    // The attempt's result once validated, with its error cut to size.
    function Judge(answer: Result<string>): Result<string> {
      match answer
      case Err(error) => Err(BoundedError(error))
      case Ok(output) =>
        if |output| > maxOutputLength then Err("output exceeds its limit")
        else
          var invalid := validate(output);
          if invalid.Some? then Err(BoundedError(invalid.value)) else Ok(output)
    }

    // What an answer comes to. Only an output within the limit that the validator passes
    // is a result, and it is the processor's own; any other answer becomes feedback cut to
    // size: the processor's error, or what is wrong with its output.
    ghost predicate Comes(answer: Result<string>, outcome: Result<string>) {
      match outcome
      case Ok(output) => answer == Ok(output) && |output| <= maxOutputLength && validate(output) == None
      case Err(feedback) =>
        && |feedback| <= MAX_ERROR_LENGTH
        && match answer
           case Err(error) => Cut(error, feedback)
           case Ok(output) =>
             if |output| > maxOutputLength then feedback == "output exceeds its limit"
             else validate(output).Some? && Cut(validate(output).value, feedback)
    }

    ghost predicate Cut(error: string, feedback: string) {
      feedback <= error && |feedback| == Min(|error|, MAX_ERROR_LENGTH)
    }

    // What a step met at its moment: the context, the disk, or the processor's answer to
    // the attempt and feedback in the worker's memory.
    ghost predicate Met(raw: string, phase: Phase, move: Move) {
      match move.event
      case Check(cancelled) => cancelled == cancelledAt(move.at)
      case Save(ok) => ok == !brokenAt(move.at)
      case Call => true
      case Return(outcome) =>
        phase.Invoked? && Comes(process(move.at, raw, phase.st.attempts, phase.st.error), outcome)
    }

    // A walk of this runner, its steps one after the other within a stretch of time.
    ghost predicate Walked(raw: string, trail: seq<Snapshot>, moves: seq<Move>, since: nat, until: nat) {
      && Walk(maxAttempts, trail, moves)
      && (forall k | 0 <= k < |moves| :: since <= moves[k].at < until && Met(raw, trail[k].phase, moves[k]))
      && (forall j, k | 0 <= j < k < |moves| :: moves[j].at < moves[k].at)
    }

    // A completed item: the processor gave exactly this output at that attempt, within the
    // limit and passed by the validator.
    ghost predicate Good(raw: string, st: ItemState, since: nat, until: nat) {
      && st.status == Completed && |st.output| <= maxOutputLength && validate(st.output) == None
      && exists t, feedback :: since <= t < until && process(t, raw, st.attempts, feedback) == Ok(st.output)
    }

    // The save after a bad attempt.
    method SaveFeedback(store: StateStore, index: nat, raw: string, st: ItemState,
                        ghost trail: seq<Snapshot>, ghost moves: seq<Move>, ghost since: nat)
      returns (err: bool, ghost trail': seq<Snapshot>, ghost moves': seq<Move>)
      requires index < |store.cells| && Walked(raw, trail, moves, since, now) && since <= now
      requires trail[|moves|] == Snapshot(store.cells[index], Retrying(index, st))
      modifies store, this`now
      ensures |store.cells| == |old(store.cells)| && store.cells == old(store.cells)[index := store.cells[index]]
      ensures old(now) <= now && Walked(raw, trail', moves', since, now) && trail'[0] == trail[0]
      ensures trail'[|moves'|]
              == Snapshot(store.cells[index], if err then Releasing(index, true) else Looping(index, st))
    {
      var saved := store.Save(index, st, brokenAt(now));
      err := !saved;
      trail', moves' :=
        Extend(raw, trail, moves, now, Save(saved),
               Snapshot(store.cells[index], if saved then Looping(index, st) else Releasing(index, true)), since);
      now := now + 1;
    }

    // The call itself, and what becomes of its answer.
    method Invoke(store: StateStore, index: nat, raw: string, st: ItemState,
                  ghost trail: seq<Snapshot>, ghost moves: seq<Move>, ghost since: nat)
      returns (after: ItemState, done: bool, err: bool, ghost trail': seq<Snapshot>, ghost moves': seq<Move>)
      requires index < |store.cells| && Walked(raw, trail, moves, since, now) && since <= now
      requires trail[|moves|] == Snapshot(store.cells[index], Calling(index, st))
      requires st.status == Running && st.output == ""
      modifies store, this`now
      ensures |store.cells| == |old(store.cells)| && store.cells == old(store.cells)[index := store.cells[index]]
      ensures old(now) <= now && Walked(raw, trail', moves', since, now) && trail'[0] == trail[0]
      ensures trail'[|moves'|] == Snapshot(store.cells[index],
        if err then Releasing(index, true) else if done then Saving(index, after) else Looping(index, after))
      ensures !err && done ==> Good(raw, after, old(now), now)
      ensures !err && !done ==> after.status == Running && after.output == "" && after.attempts == st.attempts
    {
      trail', moves' := Extend(raw, trail, moves, now, Call, Snapshot(store.cells[index], Invoked(index, st)), since);
      now := now + 1;
      var outcome := Judge(process(now, raw, st.attempts, st.error));
      err := false;
      if outcome.Ok? {
        after, done := ItemState(Completed, st.attempts, outcome.value, ""), true;
        trail', moves' :=
          Extend(raw, trail', moves', now, Return(outcome), Snapshot(store.cells[index], Saving(index, after)), since);
        now := now + 1;
      } else {
        after, done := st.(error := outcome.error), false;
        trail', moves' :=
          Extend(raw, trail', moves', now, Return(outcome), Snapshot(store.cells[index], Retrying(index, after)),
                 since);
        now := now + 1;
        err, trail', moves' := SaveFeedback(store, index, raw, after, trail', moves', since);
      }
    }

    // One save before the call and one after it, each durable before the next thing happens.
    method Attempt(store: StateStore, index: nat, raw: string, st: ItemState)
      returns (after: ItemState, done: bool, err: bool, ghost trail: seq<Snapshot>, ghost moves: seq<Move>)
      requires index < |store.cells| && st.status == Running && st.output == "" && st.attempts < maxAttempts
      modifies store, this`now
      ensures |store.cells| == |old(store.cells)| && store.cells == old(store.cells)[index := store.cells[index]]
      ensures old(now) <= now && Walked(raw, trail, moves, old(now), now)
      ensures trail[0] == Snapshot(old(store.cells[index]), Presaving(index, st.(attempts := st.attempts + 1)))
      ensures trail[|moves|] == Snapshot(store.cells[index],
        if err then Releasing(index, true) else if done then Saving(index, after) else Looping(index, after))
      ensures !err && done ==> Good(raw, after, old(now), now)
      ensures !err && !done ==> after.status == Running && after.output == "" && after.attempts == st.attempts + 1
    {
      ghost var since := now;
      after, done, err := st.(attempts := st.attempts + 1), false, false;
      trail, moves := [Snapshot(store.cells[index], Presaving(index, after))], [];
      var saved := store.Save(index, after, brokenAt(now));
      trail, moves :=
        Extend(raw, trail, moves, now, Save(saved),
               Snapshot(store.cells[index], if saved then Calling(index, after) else Releasing(index, true)), since);
      now := now + 1;
      if !saved {
        err := true;
        return;
      }
      after, done, err, trail, moves := Invoke(store, index, raw, after, trail, moves, since);
    }

    // Processes an item until it has a result, runs out of attempts, or is cancelled.
    // It gives up an item that is not settled only if it saw the context done, completes
    // one only with an output that passed, and fails one only after the last attempt.
    method ProcessOne(store: StateStore, work: Work, raw: string)
      returns (st: ItemState, err: bool, ghost trail: seq<Snapshot>, ghost moves: seq<Move>)
      requires work.index < |store.cells| && CellOk(maxAttempts, store.cells[work.index])
      requires Resumable(work.index, store.cells[work.index]) == Some(work)
      modifies store, this`now
      ensures |store.cells| == |old(store.cells)|
      ensures store.cells == old(store.cells)[work.index := store.cells[work.index]]
      ensures old(now) <= now && Walked(raw, trail, moves, old(now), now)
      ensures trail[0] == Snapshot(old(store.cells[work.index]), Start(work))
      ensures trail[|moves|] == Snapshot(store.cells[work.index],
        if err then Releasing(work.index, true) else Saving(work.index, st))
      ensures !err && !st.Terminal() ==> exists t | old(now) <= t < now :: cancelledAt(t)
      ensures !err && st.status == Completed ==> Good(raw, st, old(now), now)
      ensures !err && st.status == Failed ==> st.attempts == maxAttempts && st.output == ""
    {
      hide Mapper.Met;
      ghost var since := now;
      st := ItemState(Running, work.attempts, "", work.feedback);
      err := false;
      trail, moves := [Snapshot(store.cells[work.index], Start(work))], [];
      var attempt := work.attempts + 1;
      while attempt <= maxAttempts
        invariant attempt == st.attempts + 1 && attempt <= maxAttempts + 1 && st.status == Running
        invariant st.output == "" && !err && since <= now
        invariant |store.cells| == |old(store.cells)|
        invariant store.cells == old(store.cells)[work.index := store.cells[work.index]]
        invariant Walked(raw, trail, moves, since, now)
        invariant trail[0] == Snapshot(old(store.cells[work.index]), Start(work))
        invariant trail[|moves|] == Snapshot(store.cells[work.index], Looping(work.index, st))
      {
        now := now + 1;
        if cancelledAt(now - 1) {
          trail, moves :=
            Extend(raw, trail, moves, now - 1, Check(true),
                     Snapshot(store.cells[work.index], Saving(work.index, st)), since);
          return;
        }
        trail, moves :=
          Extend(raw, trail, moves, now - 1, Check(false),
                   Snapshot(store.cells[work.index], Presaving(work.index, st.(attempts := attempt))), since);
        var done;
        ghost var met := now;
        ghost var more, rest;
        st, done, err, more, rest := Attempt(store, work.index, raw, st);
        JoinWalks(raw, trail, moves, since, met, more, rest, now);
        trail, moves := trail[..|moves|] + more, moves + rest;
        if err || done {
          return;
        }
        attempt := attempt + 1;
      }
      st := st.(status := Failed);
      trail, moves :=
        Extend(raw, trail, moves, now, Check(cancelledAt(now)),
               Snapshot(store.cells[work.index], Saving(work.index, st)), since);
      now := now + 1;
    }

    // One turn of a worker's loop. Every path ends with the item released, with an error
    // exactly when a write failed on the way, and unsettled without one only if the
    // context was done.
    method Turn(store: StateStore, work: Work, raw: string)
      returns (err: bool, ghost trail: seq<Snapshot>, ghost moves: seq<Move>)
      requires work.index < |store.cells| && CellOk(maxAttempts, store.cells[work.index])
      requires Resumable(work.index, store.cells[work.index]) == Some(work)
      modifies store, this`now
      ensures |store.cells| == |old(store.cells)|
      ensures store.cells == old(store.cells)[work.index := store.cells[work.index]]
      ensures old(now) <= now && Walked(raw, trail, moves, old(now), now)
      ensures trail[0] == Snapshot(old(store.cells[work.index]), Start(work))
      ensures trail[|moves|] == Snapshot(store.cells[work.index], Releasing(work.index, err))
      ensures moves != [] && moves[|moves| - 1].event == Save(!err)
      ensures CellOk(maxAttempts, store.cells[work.index])
      ensures CellGrows(old(store.cells[work.index]), store.cells[work.index])
      ensures !err && !Settled(store.cells[work.index]) ==> exists t | old(now) <= t < now :: cancelledAt(t)
    {
      var st;
      st, err, trail, moves := ProcessOne(store, work, raw);
      if !err {
        var saved := store.Save(work.index, st, brokenAt(now));
        trail, moves :=
          Extend(raw, trail, moves, now, Save(saved), Snapshot(store.cells[work.index], Releasing(work.index, !saved)),
                 old(now));
        now := now + 1;
        err := !saved;
      }
      WalkKeepsOk(maxAttempts, trail, moves, |moves|);
      assert Follows(maxAttempts, trail[|moves| - 1], moves[|moves| - 1].event, trail[|moves|]);
    }

    lemma JoinWalks(raw: string, trail: seq<Snapshot>, moves: seq<Move>, since: nat, met: nat,
                    more: seq<Snapshot>, rest: seq<Move>, until: nat)
      requires Walked(raw, trail, moves, since, met) && Walked(raw, more, rest, met, until)
      requires since <= met <= until && trail[|moves|] == more[0]
      ensures Walked(raw, trail[..|moves|] + more, moves + rest, since, until)
    {
      var joined, all := trail[..|moves|] + more, moves + rest;
      forall k | 0 <= k < |all|
        ensures Follows(maxAttempts, joined[k], all[k].event, joined[k + 1])
        ensures since <= all[k].at < until && Met(raw, joined[k].phase, all[k])
      {
        if k < |moves| {
          assert Follows(maxAttempts, trail[k], moves[k].event, trail[k + 1]);
          assert joined[k] == trail[k] && joined[k + 1] == trail[k + 1];
        } else {
          assert Follows(maxAttempts, more[k - |moves|], rest[k - |moves|].event, more[k - |moves| + 1]);
          assert joined[k] == more[k - |moves|] && joined[k + 1] == more[k - |moves| + 1];
        }
      }
    }

    // One step more, at a moment after the ones before it.
    ghost method Extend(raw: string, trail: seq<Snapshot>, moves: seq<Move>, at: nat, e: Event, after: Snapshot,
                          since: nat)
      returns (trail': seq<Snapshot>, moves': seq<Move>)
      requires Walked(raw, trail, moves, since, at) && since <= at
      requires Follows(maxAttempts, trail[|moves|], e, after) && Met(raw, trail[|moves|].phase, Move(at, e))
      ensures Walked(raw, trail', moves', since, at + 1)
      ensures trail' == trail + [after] && moves' == moves + [Move(at, e)]
    {
      trail', moves' := trail + [after], moves + [Move(at, e)];
      forall k | 0 <= k < |moves'|
        ensures Follows(maxAttempts, trail'[k], moves'[k].event, trail'[k + 1])
        ensures since <= moves'[k].at < at + 1 && Met(raw, trail'[k].phase, moves'[k])
      {
        if k < |moves| {
          assert Follows(maxAttempts, trail[k], moves[k].event, trail[k + 1]);
        }
      }
    }
  }

  // ---- the published output ----

  datatype Output = Output(index: nat, ok: bool, output: string, error: string, attempts: nat)

  datatype Summary = Summary(total: nat, succeeded: nat, failed: nat)

  // The published line of a settled item.
  predicate IsLine(line: Output, index: nat, st: ItemState) {
    && line.index == index && (line.ok <==> st.status == Completed)
    && line.output == st.output && line.error == st.error && line.attempts == st.attempts
  }

  // The items that count as succeeded.
  function OkItems(lines: seq<Output>): set<nat> {
    set i: nat | i < |lines| && lines[i].ok
  }

  lemma NothingOk()
    ensures OkItems([]) == {}
  {
  }

  lemma OkItemsMore(lines: seq<Output>, line: Output)
    ensures OkItems(lines + [line]) == OkItems(lines) + (if line.ok then {|lines|} else {})
    ensures |OkItems(lines + [line])| == |OkItems(lines)| + (if line.ok then 1 else 0)
  {
    var n: nat := |lines|;
    assert n !in OkItems(lines);
    forall i: nat
      ensures i in OkItems(lines + [line]) <==> i in OkItems(lines) || (line.ok && i == n)
    {
      if i < n {
        assert (lines + [line])[i] == lines[i];
      }
    }
  }

  lemma OkItemsCompleted(lines: seq<Output>, cells: seq<Option<ItemState>>)
    requires |lines| == |cells| && forall i | 0 <= i < |cells| :: cells[i].Some? && IsLine(lines[i], i, cells[i].value)
    ensures OkItems(lines) == set i: nat | i < |cells| && cells[i].value.status == Completed
  {
  }

  // The output is published only when every item is settled: one line per item in
  // index order, and the counts add up. Otherwise nothing is published.
  method AssembleOutput(store: StateStore) returns (r: Result<Summary>, published: Option<seq<Output>>)
    ensures r.Ok? <==> forall i | 0 <= i < |store.cells| :: Settled(store.cells[i])
    ensures r.Ok? <==> published.Some?
    ensures published.Some? ==>
      && |published.value| == |store.cells|
      && forall i | 0 <= i < |store.cells| :: IsLine(published.value[i], i, store.cells[i].value)
    ensures r.Ok? ==>
      && r.value.total == |store.cells|
      && r.value.succeeded == |set i: nat | i < |store.cells| && store.cells[i].value.status == Completed|
      && r.value.succeeded + r.value.failed == r.value.total
  {
    hide OkItems;
    var lines: seq<Output> := [];
    var succeeded: nat, failed: nat := 0, 0;
    NothingOk();
    for index := 0 to |store.cells|
      invariant forall i | 0 <= i < index :: Settled(store.cells[i])
      invariant |lines| == index && forall i | 0 <= i < index :: IsLine(lines[i], i, store.cells[i].value)
      invariant succeeded == |OkItems(lines)| && succeeded + failed == index
    {
      var cell := store.Load(index);
      if cell.None? || (cell.value.status != Completed && cell.value.status != Failed) {
        return Err("llmmap: item has no terminal state"), None;
      }
      var st := cell.value;
      var line := Output(index, st.status == Completed, st.output, st.error, st.attempts);
      if line.ok {
        succeeded := succeeded + 1;
      } else {
        failed := failed + 1;
      }
      OkItemsMore(lines, line);
      lines := lines + [line];
    }
    OkItemsCompleted(lines, store.cells);
    return Ok(Summary(|store.cells|, succeeded, failed)), Some(lines);
  }
}
