// One item of a map run: its durable state, the steps of a worker that holds it,
// and the outcome an uninterrupted worker reaches.
module MapItem {
  import opened Core

  datatype Status = Running | Completed | Failed

  datatype ItemState = ItemState(status: Status, attempts: nat, output: string, error: string) {
    predicate Terminal() {
      status != Running
    }
  }

  // The item's state file: None before its first save.
  type Cell = Option<ItemState>

  // An item as queued: what its state file said when it was scanned.
  datatype Work = Work(index: nat, attempts: nat, feedback: string)

  // What a resumed run does with an item: nothing when it is settled.
  function Resumable(index: nat, cell: Cell): Option<Work> {
    match cell
    case None => Some(Work(index, 0, ""))
    case Some(st) => if st.Terminal() then None else Some(Work(index, st.attempts, st.error))
  }

  // ---- a worker ----

  // Where a worker is. From Looping to Releasing it holds item `index`; between
  // Calling and the save after the call, the attempt's result is in memory only.
  datatype Phase =
    | Waiting
    | Looping(index: nat, st: ItemState)
    | Presaving(index: nat, st: ItemState)
    | Calling(index: nat, st: ItemState)
    | Invoked(index: nat, st: ItemState)
    | Retrying(index: nat, st: ItemState)
    | Saving(index: nat, st: ItemState)
    | Releasing(index: nat, failed: bool)
    | Reporting
    | Cancelling
    | Exited
  {
    predicate Working() {
      Looping? || Presaving? || Calling? || Invoked? || Retrying? || Saving?
    }

    predicate Holds() {
      Working() || Releasing?
    }
  }

  // What a worker's next step meets: the context, the disk, the processor.
  datatype Event = Check(cancelled: bool) | Save(ok: bool) | Call | Return(outcome: Result<string>)

  predicate CanMove(phase: Phase, e: Event) {
    match phase
    case Looping(_, _) => e.Check?
    case Calling(_, _) => e.Call?
    case Invoked(_, _) => e.Return?
    case Presaving(_, _) => e.Save?
    case Retrying(_, _) => e.Save?
    case Saving(_, _) => e.Save?
    case _ => false
  }

  function Start(work: Work): Phase {
    Looping(work.index, ItemState(Running, work.attempts, "", work.feedback))
  }

  function NextPhase(maxAttempts: nat, phase: Phase, e: Event): Phase
    requires CanMove(phase, e)
  {
    match phase
    case Looping(i, st) =>
      if st.attempts >= maxAttempts then Saving(i, st.(status := Failed))
      else if e.cancelled then Saving(i, st)
      else Presaving(i, st.(attempts := st.attempts + 1))
    case Presaving(i, st) => if e.ok then Calling(i, st) else Releasing(i, true)
    case Calling(i, st) => Invoked(i, st)
    case Invoked(i, st) =>
      (match e.outcome
       case Ok(output) => Saving(i, ItemState(Completed, st.attempts, output, ""))
       case Err(error) => Retrying(i, st.(error := error)))
    case Retrying(i, st) => if e.ok then Looping(i, st) else Releasing(i, true)
    case Saving(i, _) => Releasing(i, !e.ok)
  }

  function NextCell(cell: Cell, phase: Phase, e: Event): Cell
    requires CanMove(phase, e)
  {
    if e.Save? && e.ok then Some(phase.st) else cell
  }

  // ---- what the steps keep ----

  function Attempts(cell: Cell): nat {
    if cell.Some? then cell.value.attempts else 0
  }

  function Feedback(cell: Cell): string {
    if cell.Some? then cell.value.error else ""
  }

  predicate Settled(cell: Cell) {
    cell.Some? && cell.value.Terminal()
  }

  // How a worker's memory relates to the file of the item it holds.
  predicate PhaseOk(maxAttempts: nat, cell: Cell, phase: Phase) {
    match phase
    case Looping(_, st) => st == ItemState(Running, Attempts(cell), "", Feedback(cell)) && !Settled(cell)
    case Presaving(_, st) =>
      st == ItemState(Running, Attempts(cell) + 1, "", Feedback(cell)) && st.attempts <= maxAttempts && !Settled(cell)
    case Calling(_, st) => cell == Some(st) && st.status == Running && st.attempts > 0
    case Invoked(_, st) => cell == Some(st) && st.status == Running && st.attempts > 0
    case Retrying(_, st) => st.status == Running && st.attempts == Attempts(cell) && st.output == "" && !Settled(cell)
    case Saving(_, st) =>
      && st.attempts == Attempts(cell) && !Settled(cell)
      && (st.status == Running ==> st.error == Feedback(cell) && st.output == "")
      && (st.status == Failed ==> st.error == Feedback(cell) && st.output == "" && st.attempts >= maxAttempts)
      && (st.status == Completed ==> st.error == "")
    case _ => true
  }

  predicate CellOk(maxAttempts: nat, cell: Cell) {
    cell.Some? ==>
      && cell.value.attempts <= maxAttempts
      && (cell.value.status != Completed ==> cell.value.output == "")
      && (cell.value.status == Completed ==> cell.value.error == "")
  }

  // Files only gain attempts, and a settled file is never written again.
  predicate CellGrows(before: Cell, after: Cell) {
    && Attempts(before) <= Attempts(after)
    && (before.Some? ==> after.Some?)
    && (Settled(before) ==> after == before)
  }

  lemma MoveKeepsOk(maxAttempts: nat, cell: Cell, phase: Phase, e: Event)
    requires CellOk(maxAttempts, cell) && PhaseOk(maxAttempts, cell, phase) && CanMove(phase, e)
    ensures CellOk(maxAttempts, NextCell(cell, phase, e))
    ensures PhaseOk(maxAttempts, NextCell(cell, phase, e), NextPhase(maxAttempts, phase, e))
    ensures CellGrows(cell, NextCell(cell, phase, e))
  {
  }

  // ---- the sequential run ----

  // A processor whose answer depends only on the item, the attempt and the feedback.
  type Processor = (nat, nat, string) -> Result<string>

  // The state an uninterrupted worker leaves an item in.
  function Final(process: Processor, maxAttempts: nat, index: nat, attempts: nat, feedback: string): ItemState
    decreases maxAttempts - attempts
  {
    if attempts >= maxAttempts then ItemState(Failed, attempts, "", feedback)
    else
      match process(index, attempts + 1, feedback)
      case Ok(output) => ItemState(Completed, attempts + 1, output, "")
      case Err(error) => Final(process, maxAttempts, index, attempts + 1, error)
  }

  // The feedback left by attempts `from` + 1 to n: the error of the last one.
  function FeedbackAfter(process: Processor, index: nat, from: nat, feedback: string, n: nat): string
    requires from <= n
  {
    if n == from then feedback
    else
      match process(index, n, FeedbackAfter(process, index, from, feedback, n - 1))
      case Ok(_) => ""
      case Err(error) => error
  }

  // What attempt n answers, given the feedback of the ones before it.
  function Answer(process: Processor, index: nat, from: nat, feedback: string, n: nat): Result<string>
    requires from < n
  {
    process(index, n, FeedbackAfter(process, index, from, feedback, n - 1))
  }

  lemma {:induction false} FeedbackChain(process: Processor, index: nat, from: nat, feedback: string, error: string,
                                         n: nat)
    requires from < n && process(index, from + 1, feedback) == Err(error)
    ensures FeedbackAfter(process, index, from, feedback, n) == FeedbackAfter(process, index, from + 1, error, n)
    decreases n
  {
    assert FeedbackAfter(process, index, from, feedback, from) == feedback;
    if n > from + 1 {
      FeedbackChain(process, index, from, feedback, error, n - 1);
    }
  }

  // An item ends completed by its first good attempt, every one before it having failed
  // with the feedback of its predecessors, or failed after exactly maxAttempts bad ones.
  lemma {:induction false} FinalIsFirstSuccess(process: Processor, maxAttempts: nat, index: nat, from: nat,
                                               feedback: string)
    requires from <= maxAttempts
    ensures
      var st := Final(process, maxAttempts, index, from, feedback);
      && from <= st.attempts <= maxAttempts
      && (forall n | from < n < st.attempts :: Answer(process, index, from, feedback, n).Err?)
      && (match st.status
          case Running => false
          case Completed =>
            from < st.attempts && st.error == "" && Answer(process, index, from, feedback, st.attempts) == Ok(st.output)
          case Failed =>
            && st.attempts == maxAttempts && st.error == FeedbackAfter(process, index, from, feedback, maxAttempts)
            && (from < maxAttempts ==> Answer(process, index, from, feedback, maxAttempts).Err?))
    decreases maxAttempts - from
  {
    if from < maxAttempts {
      assert FeedbackAfter(process, index, from, feedback, from) == feedback;
      match process(index, from + 1, feedback)
      case Ok(output) =>
      case Err(error) =>
        FinalIsFirstSuccess(process, maxAttempts, index, from + 1, error);
        forall n | from < n <= maxAttempts
          ensures FeedbackAfter(process, index, from, feedback, n) == FeedbackAfter(process, index, from + 1, error, n)
        {
          FeedbackChain(process, index, from, feedback, error, n);
        }
        forall n | from + 1 < n <= maxAttempts
          ensures Answer(process, index, from, feedback, n) == Answer(process, index, from + 1, error, n)
        {
        }
    }
  }

  // A worker's memory or, when it holds none, the item's file still leads to the
  // outcome of the sequential run.
  ghost predicate OnCourse(process: Processor, maxAttempts: nat, index: nat, cell: Cell) {
    if Settled(cell) then cell.value == Final(process, maxAttempts, index, 0, "")
    else Final(process, maxAttempts, index, Attempts(cell), Feedback(cell)) == Final(process, maxAttempts, index, 0, "")
  }

  // An attempt whose result is not in the item's file yet.
  predicate Pending(phase: Phase) {
    phase.Calling? || phase.Invoked? || phase.Retrying? || (phase.Saving? && phase.st.status == Completed)
  }

  ghost predicate PendingOnCourse(process: Processor, maxAttempts: nat, phase: Phase)
    requires Pending(phase)
  {
    var goal := Final(process, maxAttempts, phase.index, 0, "");
    match phase
    case Retrying(i, st) => Final(process, maxAttempts, i, st.attempts, st.error) == goal
    case Saving(_, st) => st == goal
    case _ =>
      && 0 < phase.st.attempts <= maxAttempts
      && Final(process, maxAttempts, phase.index, phase.st.attempts - 1, phase.st.error) == goal
  }

  ghost predicate WorkerOnCourse(process: Processor, maxAttempts: nat, cell: Cell, phase: Phase)
    requires phase.Holds()
  {
    if Pending(phase) then PendingOnCourse(process, maxAttempts, phase)
    else OnCourse(process, maxAttempts, phase.index, cell)
  }

  // The processor's own answer, and no failed write while a result is in memory only.
  predicate Faithful(process: Processor, phase: Phase, e: Event)
    requires CanMove(phase, e)
  {
    && (phase.Invoked? ==> e.outcome == process(phase.index, phase.st.attempts, phase.st.error))
    && (e.Save? && Pending(phase) ==> e.ok)
  }

  lemma MoveKeepsCourse(process: Processor, maxAttempts: nat, cell: Cell, phase: Phase, e: Event)
    requires CellOk(maxAttempts, cell) && PhaseOk(maxAttempts, cell, phase) && CanMove(phase, e)
    requires Faithful(process, phase, e)
    requires WorkerOnCourse(process, maxAttempts, cell, phase)
    ensures WorkerOnCourse(process, maxAttempts, NextCell(cell, phase, e), NextPhase(maxAttempts, phase, e))
  {
  }
}
