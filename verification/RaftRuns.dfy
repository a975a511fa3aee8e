/** Runs written out: states some run reaches, and single steps by what they make of a state. */
module RaftRuns {
  import opened RaftLog
  import opened RaftHistory
  import opened RaftNode
  import opened RaftCluster
  import opened RaftInvariant
  import opened RaftSafety
  import opened RaftCleanMerge
  import opened RaftClean

  /** A run, and a clean one if it has to be, that ends in s. */
  ghost predicate EndsIn(n: nat, states: seq<Cluster>, steps: seq<Step>, s: Cluster, clean: bool) {
    && IsRun(n, states, steps) && (clean ==> IsCleanRun(n, states, steps))
    && states[|states| - 1] == s
  }

  /** Some run, or some clean run, ends in s. */
  ghost predicate Reachable(s: Cluster, clean: bool) {
    exists n, states, steps :: EndsIn(n, states, steps, s, clean)
  }

  lemma Starts(n: nat, clean: bool)
    requires n > 0
    ensures Reachable(Init(n), clean)
  {
    assert EndsIn(n, [Init(n)], [], Init(n), clean);
  }

  lemma Continues(s: Cluster, clean: bool, step: Step)
    requires Reachable(s, clean) && Enabled(s, step) && (clean ==> Clean(s, step))
    ensures HasPast(s, Actor(step)) && Reachable(Perform(s, step), clean)
  {
    hide Inv, Perform, Enabled, HasPast, Clean;
    var n, states, steps :| EndsIn(n, states, steps, s, clean);
    RunKeeps(n, states, steps, |states| - 1);
    StepKeeps(s, step);
    var states', steps' := states + [Perform(s, step)], steps + [step];
    forall k | 0 <= k < |steps'| ensures Next(states'[k], steps'[k], states'[k + 1]) {
      if k < |steps| {
        assert Next(states[k], steps[k], states[k + 1]);
      }
    }
    assert IsRun(n, states', steps');
    if clean {
      forall k | 0 <= k < |steps'| ensures Enabled(states'[k], steps'[k]) && Clean(states'[k], steps'[k]) {
        if k < |steps| {
          assert Enabled(states[k], steps[k]) && Clean(states[k], steps[k]);
        }
      }
    }
    assert EndsIn(n, states', steps', Perform(s, step), clean);
  }

  /** What a clean run reaches satisfies the clean invariant. */
  lemma ReachedCleanly(s: Cluster)
    requires Reachable(s, true)
    ensures CleanInv(s)
  {
    hide CleanInv, Next;
    var n, states, steps :| EndsIn(n, states, steps, s, true);
    CleanRunKeeps(n, states, steps, |states| - 1);
  }

  // ----- steps, by what they make of the state ---------------------------------------------

  lemma Stands(s: Cluster, clean: bool, i: int) returns (s': Cluster)
    requires Reachable(s, clean) && Up(s, i) && s.nodes[i].status != Leader
    ensures Reachable(s', clean)
    ensures s'.nodes == s.nodes[i := Stand(s.nodes[i], i)] && s'.stream == s.stream && s'.rounds == s.rounds
    ensures forall j | 0 <= j < |s.nodes| && j != i :: VoteCall(j, Ballot(s'.nodes[i], i)) in s'.voteCalls
    ensures (i, s'.nodes[i].term) in s'.elections && s'.elections[(i, s'.nodes[i].term)] == NO_VOTES
  {
    hide Reachable;
    Continues(s, clean, Step.Elect(i));
    s' := Perform(s, Step.Elect(i));
    forall j | 0 <= j < |s.nodes| && j != i ensures VoteCall(j, Ballot(s'.nodes[i], i)) in s'.voteCalls {
      assert j in Peers(|s.nodes|, i);
    }
  }

  lemma Votes(s: Cluster, clean: bool, call: VoteCall) returns (s': Cluster)
    requires Reachable(s, clean) && call in s.voteCalls && Up(s, call.to)
    ensures Reachable(s', clean)
    ensures s'.nodes == s.nodes[call.to := RequestVote(s.nodes[call.to], call.args).0] && s'.stream == s.stream && s'.rounds == s.rounds
    ensures s'.voteCalls == s.voteCalls && s'.elections == s.elections
    ensures VoteAnswer(call, RequestVote(s.nodes[call.to], call.args).1) in s'.voteAnswers
  {
    hide Reachable, CleanAppend, RequestVote, PastOfVote;
    Continues(s, clean, DeliverVote(call));
    s' := Perform(s, DeliverVote(call));
  }

  /** A vote cast and taken in. */
  lemma VotesAndCounts(s: Cluster, clean: bool, call: VoteCall, c: int, key: (int, int)) returns (s': Cluster)
    requires Reachable(s, clean) && call in s.voteCalls && Up(s, call.to) && Up(s, c) && c != call.to
    requires c == call.args.candidate && key == (c, call.args.term) && key in s.elections && call.to !in s.elections[key].done
    ensures Reachable(s', clean)
    ensures var (nd, reply) := RequestVote(s.nodes[call.to], call.args);
      var (nd', num) := CountVote(s.nodes[c], |s.nodes|, reply, s.elections[key].num);
      && s'.nodes == s.nodes[call.to := nd][c := nd'] && s'.stream == s.stream && s'.rounds == s.rounds
      && s'.voteCalls == s.voteCalls
      && key in s'.elections && s'.elections[key].num == num && s'.elections[key].done == s.elections[key].done + {call.to}
  {
    hide Reachable, CleanAppend, RequestVote, CountVote, PastOfCount;
    var (nd, reply) := RequestVote(s.nodes[call.to], call.args);
    var m := Votes(s, clean, call);
    Continues(m, clean, TakeVote(VoteAnswer(call, reply)));
    s' := Perform(m, TakeVote(VoteAnswer(call, reply)));
  }

  lemma Proposes(s: Cluster, clean: bool, i: int, command: string) returns (s': Cluster)
    requires Reachable(s, clean) && Up(s, i)
    ensures Reachable(s', clean)
    ensures s'.nodes == s.nodes[i := Start(s.nodes[i], command).0] && s'.stream == s.stream && s'.rounds == s.rounds
  {
    hide Reachable, CleanAppend, Start;
    Continues(s, clean, Propose(i, command));
    s' := Perform(s, Propose(i, command));
  }

  lemma Beats(s: Cluster, clean: bool, i: int) returns (s': Cluster)
    requires Reachable(s, clean) && Up(s, i) && s.nodes[i].status == Leader
    requires forall j | 0 <= j < |s.nodes| && j != i :: Answers(s.nodes[i], i, j) || NeedsSnapshot(s.nodes[i], i, j)
    ensures Reachable(s', clean)
    ensures s'.nodes == s.nodes && s'.stream == s.stream && s.appendCalls <= s'.appendCalls
    ensures s'.rounds == s.rounds + [Round(i, s.nodes[i].term, LastIndex(s.nodes[i]), NO_VOTES)]
    ensures forall j | 0 <= j < |s.nodes| && j != i && Answers(s.nodes[i], i, j) ::
      AppendCall(|s.rounds|, j, HeartBeatTo(s.nodes[i], i, j).args) in s'.appendCalls
    ensures forall j | 0 <= j < |s.nodes| && j != i && NeedsSnapshot(s.nodes[i], i, j) :: SnapTask(|s.rounds|, i, j) in s'.snapTasks
  {
    hide Reachable, CleanAppend, HeartBeatTo, LastIndex;
    Continues(s, clean, HeartBeat(i));
    s' := Perform(s, HeartBeat(i));
    forall j | 0 <= j < |s.nodes| && j != i && Answers(s.nodes[i], i, j) ensures AppendCall(|s.rounds|, j, HeartBeatTo(s.nodes[i], i, j).args) in s'.appendCalls {
      assert j in Peers(|s.nodes|, i);
    }
    forall j | 0 <= j < |s.nodes| && j != i && NeedsSnapshot(s.nodes[i], i, j) ensures SnapTask(|s.rounds|, i, j) in s'.snapTasks {
      assert j in Peers(|s.nodes|, i);
    }
  }

  lemma Appends(s: Cluster, clean: bool, call: AppendCall) returns (s': Cluster)
    requires Reachable(s, clean) && call in s.appendCalls && Up(s, call.to)
    requires clean ==> CleanAppend(s.nodes[call.to], call.args)
    ensures Reachable(s', clean)
    ensures s'.nodes == s.nodes[call.to := AppendEntries(s.nodes[call.to], call.args).0] && s'.stream == s.stream && s'.rounds == s.rounds
    ensures s'.appendCalls == s.appendCalls
    ensures AppendEntries(s.nodes[call.to], call.args).0.alive ==>
      AppendAnswer(call, AppendEntries(s.nodes[call.to], call.args).1) in s'.appendAnswers
  {
    hide Reachable, CleanAppend, AppendEntries, PastOfAppend;
    Continues(s, clean, DeliverAppend(call));
    s' := Perform(s, DeliverAppend(call));
  }

  /** An AppendEntries delivered and its answer taken in. */
  lemma AppendsAndCounts(s: Cluster, clean: bool, call: AppendCall, c: int) returns (s': Cluster)
    requires Reachable(s, clean) && call in s.appendCalls && Up(s, call.to) && Up(s, c) && c != call.to && c == call.args.leader
    requires AppendEntries(s.nodes[call.to], call.args).0.alive && (clean ==> CleanAppend(s.nodes[call.to], call.args))
    requires HasPeer(s.nodes[c], call.to) && 0 <= call.round < |s.rounds| && call.to !in s.rounds[call.round].tally.done
    ensures Reachable(s', clean)
    ensures var (nd, reply) := AppendEntries(s.nodes[call.to], call.args);
      var (nd', num) := CountAppend(s.nodes[c], |s.nodes|, call.to, call.args, reply, s.rounds[call.round].tally.num);
      && s'.nodes == s.nodes[call.to := nd][c := nd'] && s'.stream == s.stream && s'.appendCalls == s.appendCalls
      && |s'.rounds| == |s.rounds| && s'.rounds[call.round].tally.num == num
      && s'.rounds[call.round].tally.done == s.rounds[call.round].tally.done + {call.to}
  {
    hide Reachable, CleanAppend, AppendEntries, CountAppend;
    var m := Appends(s, clean, call);
    var answer := AppendAnswer(call, AppendEntries(s.nodes[call.to], call.args).1);
    Continues(m, clean, TakeAppend(answer));
    s' := Perform(m, TakeAppend(answer));
  }

  lemma SendsUp(s: Cluster, clean: bool, i: int) returns (s': Cluster)
    requires Reachable(s, clean) && Up(s, i) && 0 <= i < |s.stream|
    ensures Reachable(s', clean)
    ensures s'.nodes == s.nodes[i := GetApplyLogs(s.nodes[i]).0] && s'.appendCalls == s.appendCalls
    ensures s'.stream == s.stream[i := s.stream[i] + GetApplyLogs(s.nodes[i]).1]
    ensures s'.rounds == s.rounds
  {
    hide Reachable, CleanAppend, GetApplyLogs;
    Continues(s, clean, Deliver(i));
    s' := Perform(s, Deliver(i));
  }

  lemma Compacts(s: Cluster, clean: bool, i: int, index: int, data: string) returns (s': Cluster)
    requires Reachable(s, clean) && Up(s, i)
    ensures Reachable(s', clean)
    ensures s'.nodes == s.nodes[i := TakeSnapshot(s.nodes[i], index, data)] && s'.stream == s.stream && s'.rounds == s.rounds
    ensures s'.appendCalls == s.appendCalls && s'.snapTasks == s.snapTasks
  {
    hide Reachable, TakeSnapshot;
    Continues(s, clean, Compact(i, index, data));
    s' := Perform(s, Compact(i, index, data));
  }

  lemma SendsSnapshot(s: Cluster, clean: bool, task: SnapTask) returns (s': Cluster, call: SnapCall)
    requires Reachable(s, clean) && task in s.snapTasks && Up(s, task.from)
    ensures Reachable(s', clean)
    ensures s'.nodes == s.nodes && s'.stream == s.stream && s'.rounds == s.rounds
    ensures call in s'.snapCalls && call.task == task && call.args == SnapshotToSend(s.nodes[task.from], task.from)
  {
    hide Reachable, SnapshotToSend;
    Continues(s, clean, Step.SendSnapshot(task));
    s' := Perform(s, Step.SendSnapshot(task));
    call :| call in s'.snapCalls && call.task == task && call.args == SnapshotToSend(s.nodes[task.from], task.from);
  }
}
