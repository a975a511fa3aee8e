/**
  Executing at most once, over the whole service.  A server knows what it executed if its table calls
  every request it executed a duplicate; then it executes nothing twice.  Exactly two kinds of steps
  make it forget: a Get handler that reads for a request older than an executed one of its client, and
  a loaded snapshot whose table lacks an executed request.
*/
module KvOnce {
  import opened KvStore
  import opened KvService

  /** Every request executed here is a duplicate to the table. */
  predicate Known(v: Server) {
    forall id | id in v.executed :: Duplicate(v.store, id.0, id.1)
  }

  predicate NoRepeats(v: Server) {
    forall a, b | 0 <= a < b < |v.executed| :: v.executed[a] != v.executed[b]
  }

  /** The step makes server i forget a request it executed. */
  predicate Forgets(s: Service, step: Step, i: int)
    requires Enabled(s, step) && On(s, i)
  {
    match step
    case Read(h, _) => h.server == i && exists id | id in s.servers[i].executed :: id.0 == h.op.client && id.1 > h.op.request
    case LoadSnapshot(j, snap, _) => j == i && exists id | id in s.servers[i].executed :: !Duplicate(snap.store, id.0, id.1)
    case _ => false
  }

  lemma ReceiveKnown(v: Server, op: Op, index: nat)
    requires Known(v)
    ensures Known(Receive(v, op, index)) && (NoRepeats(v) ==> NoRepeats(Receive(v, op, index)))
  {
    if index > v.floor && Executes(v.store, op) {
      assert IdOf(op) !in v.executed;
    }
  }

  lemma ReadKnown(v: Server, v': Server, op: Op)
    requires Known(v) && v'.executed == v.executed && v'.store == ReadBy(v.store, op)
    ensures Known(v') <==> !exists id | id in v.executed :: id.0 == op.client && id.1 > op.request
  {
    if Known(v') {
      forall id | id in v.executed ensures !(id.0 == op.client && id.1 > op.request) {
        assert Duplicate(v'.store, id.0, id.1);
      }
    } else {
      var id :| id in v.executed && !Duplicate(v'.store, id.0, id.1);
      assert Duplicate(v.store, id.0, id.1);
    }
  }

  lemma LoadKnown(v: Server, snap: Snap, data: map<int, string>)
    ensures Load(v, snap, data).executed == v.executed
    ensures Known(Load(v, snap, data)) <==> !exists id | id in v.executed :: !Duplicate(snap.store, id.0, id.1)
  {
  }

  /** Exactly the steps that forget make a server not know; no step repeats an execution while it knows. */
  lemma StepKnown(s: Service, step: Step, i: int)
    requires Enabled(s, step) && On(s, i) && Known(s.servers[i])
    ensures On(Perform(s, step), i)
    ensures Known(Perform(s, step).servers[i]) <==> !Forgets(s, step, i)
    ensures NoRepeats(s.servers[i]) ==> NoRepeats(Perform(s, step).servers[i])
  {
    hide Duplicate, Receive, Apply, Load, ReadBy;
    if step.Deliver? && step.server == i {
      ReceiveKnown(s.servers[i], s.log[step.index - 1], step.index);
    } else if step.Read? && step.handler.server == i {
      ReadKnown(s.servers[i], Perform(s, step).servers[i], step.handler.op);
    } else if step.LoadSnapshot? && step.server == i {
      LoadKnown(s.servers[i], step.snap, step.data);
    }
  }

  // ----- runs ------------------------------------------------------------------------------

  predicate ForgetsAt(states: seq<Service>, steps: seq<Step>, k: int, i: int)
    requires 0 <= k < |steps| && k < |states|
  {
    Enabled(states[k], steps[k]) && On(states[k], i) && Forgets(states[k], steps[k], i)
  }

  lemma {:induction false} RunKnown(n: nat, states: seq<Service>, steps: seq<Step>, k: int, i: int)
    requires IsRun(n, states, steps) && 0 <= k < |states| && 0 <= i < n && forall j | 0 <= j < k :: !ForgetsAt(states, steps, j, i)
    ensures On(states[k], i) && Known(states[k].servers[i]) && NoRepeats(states[k].servers[i])
    decreases k
  {
    if k > 0 {
      hide Perform, Enabled, Known, NoRepeats, Forgets, Init;
      RunKnown(n, states, steps, k - 1, i);
      assert !ForgetsAt(states, steps, k - 1, i);
      StepKnown(states[k - 1], steps[k - 1], i);
    }
  }

  lemma {:induction false} RunOn(n: nat, states: seq<Service>, steps: seq<Step>, k: int, i: int)
    requires IsRun(n, states, steps) && 0 <= k < |states| && 0 <= i < n
    ensures On(states[k], i)
    decreases k
  {
    if k > 0 {
      RunOn(n, states, steps, k - 1, i);
      hide Apply, Executes, Receive, Load, ReadBy;
    }
  }

  /** Exactly when: up to any point of any run, a server knows all it executed all the time if and only if no step so far made it forget. */
  lemma KnownIffNoneForgets(n: nat, states: seq<Service>, steps: seq<Step>, m: int, i: int)
    requires IsRun(n, states, steps) && 0 <= m < |states| && 0 <= i < n
    ensures (forall k | 0 <= k <= m :: On(states[k], i) && Known(states[k].servers[i]))
      <==> (forall k | 0 <= k < m :: !ForgetsAt(states, steps, k, i))
  {
    hide Perform, Enabled, Known, NoRepeats, Forgets, Init;
    if forall k | 0 <= k < m :: !ForgetsAt(states, steps, k, i) {
      forall k | 0 <= k <= m ensures On(states[k], i) && Known(states[k].servers[i]) {
        RunKnown(n, states, steps, k, i);
      }
    } else {
      var k :| 0 <= k < m && ForgetsAt(states, steps, k, i);
      if Known(states[k].servers[i]) {
        StepKnown(states[k], steps[k], i);
        assert !Known(states[k + 1].servers[i]);
      }
    }
  }

  /** Executed at most once: while no step has made a server forget, it has executed no request twice. */
  lemma ExecutedOnceInRuns(n: nat, states: seq<Service>, steps: seq<Step>, k: int, i: int, a: int, b: int)
    requires IsRun(n, states, steps) && 0 <= k < |states| && 0 <= i < n && forall j | 0 <= j < k :: !ForgetsAt(states, steps, j, i)
    requires On(states[k], i) && 0 <= a < b < |states[k].servers[i].executed|
    ensures states[k].servers[i].executed[a] != states[k].servers[i].executed[b]
  {
    hide IsRun, Known, ForgetsAt;
    RunKnown(n, states, steps, k, i);
  }

  // ----- and what forgetting leads to ------------------------------------------------------

  /** Only updates that were issued are executed. */
  ghost predicate ExecutedIssued(s: Service, i: int)
    requires On(s, i)
  {
    forall id | id in s.servers[i].executed :: id in s.issued && Updates(s.issued[id]) && IdOf(s.issued[id]) == id
  }

  lemma CommandIssued(log: seq<Op>, issued: map<Id, Op>, index: nat)
    requires LogOk(log, issued) && 1 <= index <= |log|
    ensures IdOf(log[index - 1]) in issued && issued[IdOf(log[index - 1])] == log[index - 1]
  {
  }

  lemma ReceiveExecutes(v: Server, op: Op, index: nat)
    ensures Receive(v, op, index).executed == v.executed
      || (Updates(op) && Receive(v, op, index).executed == v.executed + [IdOf(op)])
  {
    hide Duplicate;
  }

  /** Only a delivery executes; nothing issued is ever issued again. */
  lemma OthersExecuteNothing(s: Service, step: Step, i: int)
    requires Enabled(s, step) && On(s, i)
    ensures On(Perform(s, step), i)
    ensures !(step.Deliver? && step.server == i) ==> Perform(s, step).servers[i].executed == s.servers[i].executed
    ensures forall id | id in s.issued :: id in Perform(s, step).issued && Perform(s, step).issued[id] == s.issued[id]
  {
    hide Receive, ReadBy, Duplicate;
  }

  lemma StepExecuted(s: Service, step: Step, i: int)
    requires Inv(s, true) && Enabled(s, step) && On(s, i) && ExecutedIssued(s, i)
    ensures On(Perform(s, step), i) && ExecutedIssued(Perform(s, step), i)
  {
    InvIssued(s, true);
    hide Inv, LogOk, IssuedOk, Receive, IsIssued;
    OthersExecuteNothing(s, step, i);
    if step.Deliver? && step.server == i {
      CommandIssued(s.log, s.issued, step.index);
      ReceiveExecutes(s.servers[i], s.log[step.index - 1], step.index);
    } else {
      hide Perform, Enabled;
    }
  }

  lemma {:induction false} RunExecuted(n: nat, states: seq<Service>, steps: seq<Step>, k: int, i: int)
    requires IsRun(n, states, steps) && 0 <= k < |states| && 0 <= i < n
    ensures On(states[k], i) && ExecutedIssued(states[k], i)
    decreases k
  {
    if k > 0 {
      hide Perform, Enabled, ExecutedIssued, Init, Inv;
      RunExecuted(n, states, steps, k - 1, i);
      RunInv(n, states, steps, k - 1, true);
      StepExecuted(states[k - 1], steps[k - 1], i);
    }
  }

  /**
    A server that has forgotten a request, and has taken every command so far, executes it again as
    soon as its client's retry is committed and delivered.
  */
  lemma ForgottenExecutesAgain(n: nat, states: seq<Service>, steps: seq<Step>, k: int, i: int) returns (op: Op, s': Service)
    requires IsRun(n, states, steps) && 0 <= k < |states| && 0 <= i < n && On(states[k], i)
    requires !Known(states[k].servers[i]) && states[k].servers[i].front == |states[k].log|
    ensures Enabled(states[k], Commit(op)) && Enabled(Perform(states[k], Commit(op)), Deliver(i, |states[k].log| + 1))
    ensures s' == Perform(Perform(states[k], Commit(op)), Deliver(i, |states[k].log| + 1))
    ensures On(s', i) && !NoRepeats(s'.servers[i])
  {
    hide Inv, IsRun;
    RunExecuted(n, states, steps, k, i);
    RunInv(n, states, steps, k, true);
    var s, v := states[k], states[k].servers[i];
    FloorInside(s, i);
    var a :| 0 <= a < |v.executed| && !Duplicate(v.store, v.executed[a].0, v.executed[a].1);
    op := s.issued[v.executed[a]];
    s' := Perform(Perform(s, Commit(op)), Deliver(i, |s.log| + 1));
    assert s'.servers[i].executed == v.executed + [IdOf(op)];
    assert s'.servers[i].executed[a] == s'.servers[i].executed[|v.executed|];
  }

  lemma FloorInside(s: Service, i: int)
    requires Inv(s, true) && On(s, i)
    ensures s.servers[i].floor <= |s.log|
  {
    ServerOf(s, i, true);
    hide Inv;
  }
}
