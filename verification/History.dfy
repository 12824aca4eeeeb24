// Runs as they grow: what one process contributes to a run, and what the others
// leave alone.
module History {
  import opened Core
  import opened Dag
  import opened Protocol

  // The process an action belongs to; messages belong to none of the passes.
  predicate Owned(a: Action, pid: nat) {
    match a
    case Append(_) => false
    case Begin(p, _, _) => p == pid
    case ReadLater(p) => p == pid
    case FoldLeaf(p, _, _, _, _) => p == pid
    case FoldCondensed(p, _, _, _) => p == pid
    case Persist(p) => p == pid
    case Die(p) => p == pid
  }

  // A process's own actions, in order.
  function Own(actions: seq<Action>, pid: nat): seq<Action> {
    if actions == [] then []
    else
      var last := actions[|actions| - 1];
      Own(actions[..|actions| - 1], pid) + (if Owned(last, pid) then [last] else [])
  }

  lemma OwnStep(actions: seq<Action>, a: Action, pid: nat)
    ensures Own(actions + [a], pid) == Own(actions, pid) + (if Owned(a, pid) then [a] else [])
  {
    assert (actions + [a])[..|actions|] == actions;
  }

  lemma {:induction false} RunStep(s: State, actions: seq<Action>, t: State, a: Action)
    requires Run(s, actions, t) && Enabled(t, a)
    ensures Run(s, actions + [a], Do(t, a))
    decreases |actions|
  {
    var more := actions + [a];
    if actions == [] {
      assert more[1..] == [];
    } else {
      assert more[0] == actions[0] && more[1..] == actions[1..] + [a];
      RunStep(Do(s, actions[0]), actions[1..], t, a);
    }
  }

  // Where a pass stands: not in flight, or in flight in some phase.
  function Standing(s: State, pid: nat): Option<Pass> {
    if pid in s.passes then Some(s.passes[pid]) else None
  }

  predicate Others(actions: seq<Action>, pid: nat) {
    forall i | 0 <= i < |actions| :: !Owned(actions[i], pid)
  }

  // What a pass may rely on between two of its transactions: the run goes on, the
  // store meets its invariant and only grows, and the pass stands where it stood.
  lemma {:induction false} OthersLeavePass(conversation: string, history: seq<Action>, s: State, others: seq<Action>,
                                           t: State, pid: nat)
    requires Run(Initial(conversation), history, s) && Run(s, others, t) && Others(others, pid)
    ensures Run(Initial(conversation), history + others, t)
    ensures StoreOk(t.store) && ItemsOk(t.store) && Extends(s.store, t.store)
    ensures Standing(t, pid) == Standing(s, pid) && Own(history + others, pid) == Own(history, pid)
    decreases |others|
  {
    hide StoreOk, ItemsOk, Enabled, Do, Extends;
    InitialOk(conversation);
    RunKeepsOk(Initial(conversation), history, s);
    RunKeepsOk(s, others, t);
    if others == [] {
      assert history + others == history;
    } else {
      var a, rest := others[0], others[1..];
      assert !Owned(a, pid);
      RunStep(Initial(conversation), history, s, a);
      OwnStep(history, a, pid);
      StepLeavesPass(s, a, pid);
      assert Others(rest, pid) by {
        assert forall i | 0 <= i < |rest| :: rest[i] == others[i + 1];
      }
      OthersLeavePass(conversation, history + [a], Do(s, a), rest, t, pid);
      assert history + others == (history + [a]) + rest;
    }
  }

  lemma StepLeavesPass(s: State, a: Action, pid: nat)
    requires Enabled(s, a) && !Owned(a, pid)
    ensures Standing(Do(s, a), pid) == Standing(s, pid)
  {
  }
}
