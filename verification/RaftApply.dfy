/**
  What a server sends up to the key-value layer, over any run: each command once, in order, every
  gap a range that an installed snapshot covers.  The key-value layer's part of the bargain is that
  it calls `Snapshot` only with an index it was already given.
*/
module RaftApply {
  import opened RaftLog
  import opened RaftHistory
  import opened RaftNode
  import opened RaftCluster
  import opened RaftInvariant
  import opened RaftElectionSteps
  import opened RaftReplicationSteps
  import opened RaftSnapshotSteps
  import opened RaftSafety

  /** The highest index sent up so far. */
  function High(msgs: seq<ApplyMsg>): int {
    if msgs == [] then 0 else Max(High(msgs[..|msgs| - 1]), msgs[|msgs| - 1].index)
  }

  /** Every command carries the index just after everything sent up before it. */
  ghost predicate InOrder(msgs: seq<ApplyMsg>) {
    forall k | 0 <= k < |msgs| && msgs[k].Command? :: msgs[k].index == High(msgs[..k]) + 1
  }

  lemma HighOne(msgs: seq<ApplyMsg>, m: ApplyMsg)
    ensures High(msgs + [m]) == Max(High(msgs), m.index)
  {
    assert (msgs + [m])[..|msgs|] == msgs;
  }

  lemma InOrderOne(msgs: seq<ApplyMsg>, m: ApplyMsg)
    requires InOrder(msgs) && (m.Command? ==> m.index == High(msgs) + 1)
    ensures InOrder(msgs + [m])
  {
    var all := msgs + [m];
    forall k | 0 <= k < |all| && all[k].Command? ensures all[k].index == High(all[..k]) + 1 {
      assert all[..k] == msgs[..k];
      assert k == |msgs| ==> msgs[..k] == msgs;
    }
  }

  lemma {:induction false} InOrderCommands(msgs: seq<ApplyMsg>, log: Log, lo: int, hi: int)
    requires 0 <= lo <= hi < |log| && InOrder(msgs) && High(msgs) == lo
    ensures InOrder(msgs + Commands(log, lo, hi)) && High(msgs + Commands(log, lo, hi)) == hi
    decreases hi - lo
  {
    hide InOrder, High;
    if lo == hi {
      assert msgs + Commands(log, lo, hi) == msgs;
    } else {
      var first := Command(lo + 1, log[lo + 1].command);
      InOrderOne(msgs, first);
      HighOne(msgs, first);
      InOrderCommands(msgs + [first], log, lo + 1, hi);
      assert msgs + Commands(log, lo, hi) == msgs + [first] + Commands(log, lo + 1, hi);
    }
  }

  /** What server v sent up matches its `m_lastApplied`. */
  ghost predicate SentUp(s: Cluster, v: int) {
    0 <= v < |s.nodes| == |s.stream| && InOrder(s.stream[v]) && High(s.stream[v]) == s.nodes[v].lastApplied
  }

  /** `Snapshot` is called only with an index already sent up. */
  predicate Disciplined(s: Cluster, step: Step) {
    step.Compact? && 0 <= step.server < |s.nodes| ==> step.index <= s.nodes[step.server].lastApplied
  }

  lemma DeliverSends(s: Cluster, i: int)
    requires Inv(s) && Up(s, i) && HasPast(s, i) && SentUp(s, i)
    ensures SentUp(DoDeliver(s, i), i)
  {
    hide Inv, Sound, SelfAcks, InOrder, High, Represents, IndexSpace;
    InvNode(s, i);
    var nd, log := s.nodes[i], s.past.log[i];
    GetApplyLogsIs(nd, log, |s.past.log|);
    InOrderCommands(s.stream[i], log, nd.lastApplied, nd.commitIndex);
  }

  lemma InstallSends(nd: Node, args: SnapArgs)
    ensures var (nd', _, msgs) := InstallSnapshot(nd, args);
      || (msgs == [] && nd'.lastApplied == nd.lastApplied)
      || (msgs == [Snapshot(args.lastIndex, args.lastTerm, args.data)] && nd'.lastApplied == Max(nd.lastApplied, args.lastIndex))
  {
  }

  lemma DeliverSnapshotSends(s: Cluster, call: SnapCall)
    requires Enabled(s, DeliverSnapshot(call)) && HasPast(s, call.task.to) && SentUp(s, call.task.to)
    ensures SentUp(DoDeliverSnapshot(s, call), call.task.to)
  {
    hide InOrder, High, InstallSnapshot, PastOfInstall;
    var i := call.task.to;
    InstallSends(s.nodes[i], call.args);
    HighOne(s.stream[i], Snapshot(call.args.lastIndex, call.args.lastTerm, call.args.data));
    InOrderOne(s.stream[i], Snapshot(call.args.lastIndex, call.args.lastTerm, call.args.data));
    assert s.stream[i] + [] == s.stream[i];
  }

  lemma CompactSends(s: Cluster, i: int, index: int, data: string)
    requires Up(s, i) && SentUp(s, i) && index <= s.nodes[i].lastApplied
    ensures SentUp(DoCompact(s, i, index, data), i)
  {
    hide InOrder, High;
  }

  lemma AppendSends(nd: Node, args: AppendArgs)
    ensures AppendEntries(nd, args).0.lastApplied == nd.lastApplied
  {
    hide MergeEntries, BackOff;
  }

  lemma CountSends(nd: Node, n: nat, j: int, args: AppendArgs, reply: AppendReply, num: int)
    requires HasPeer(nd, j)
    ensures CountAppend(nd, n, j, args, reply, num).0.lastApplied == nd.lastApplied
  {
  }

  /** The other steps send nothing up. */
  lemma OthersSend(s: Cluster, step: Step)
    requires Enabled(s, step) && HasPast(s, Actor(step)) && SentUp(s, Actor(step))
    requires !step.Deliver? && !step.DeliverSnapshot? && !step.Compact?
    ensures SentUp(Perform(s, step), Actor(step))
  {
    hide InOrder, High, AppendEntries, CountAppend, PastOfAppend, PastOfVote, PastOfCount, Count, HeartBeatTo;
    match step
    case DeliverAppend(call) => AppendSends(s.nodes[call.to], call.args);
    case TakeAppend(a) => CountSends(s.nodes[a.call.args.leader], |s.nodes|, a.call.to, a.call.args, a.reply, s.rounds[a.call.round].tally.num);
    case _ =>
  }

  lemma OthersStream(s: Cluster, step: Step, v: int)
    requires Enabled(s, step) && HasPast(s, Actor(step)) && 0 <= v < |s.stream| && v != Actor(step)
    ensures |Perform(s, step).stream| == |s.stream| && Perform(s, step).stream[v] == s.stream[v]
  {
    hide AppendEntries, CountAppend, PastOfAppend, PastOfVote, PastOfCount, Count, HeartBeatTo, InstallSnapshot, GetApplyLogs, PastOfInstall;
  }

  lemma ActorSends(s: Cluster, step: Step)
    requires Inv(s) && Enabled(s, step) && HasPast(s, Actor(step)) && Disciplined(s, step) && SentUp(s, Actor(step))
    ensures SentUp(Perform(s, step), Actor(step))
  {
    hide Inv, SentUp, HasPast, DoElect, DoDeliverVote, DoTakeVote, DoPropose, DoHeartBeat, DoDeliverAppend, DoTakeAppend,
      DoCompact, DoSendSnapshot, DoDeliverSnapshot, DoTakeSnapshotAnswer, DoDeliver;
    match step
    case Deliver(i) => DeliverSends(s, i);
    case DeliverSnapshot(call) => DeliverSnapshotSends(s, call);
    case Compact(i, index, data) => UpNode(s, i); CompactSends(s, i, index, data);
    case _ => OthersSend(s, step);
  }

  lemma UpNode(s: Cluster, i: int)
    requires Up(s, i)
    ensures 0 <= i < |s.nodes|
  {
  }

  lemma StepSends(s: Cluster, step: Step, v: int)
    requires Inv(s) && Enabled(s, step) && HasPast(s, Actor(step)) && Disciplined(s, step) && SentUp(s, v)
    ensures SentUp(Perform(s, step), v)
  {
    if v == Actor(step) {
      hide Inv, SentUp, Perform;
      ActorSends(s, step);
    } else {
      hide Inv, Perform, HasPast, InOrder, High, Grows;
      StepKeeps(s, step);
      OthersUntouched(s, step, v);
      OthersStream(s, step, v);
    }
  }

  ghost predicate DisciplinedRun(n: nat, states: seq<Cluster>, steps: seq<Step>) {
    IsRun(n, states, steps) && forall k | 0 <= k < |steps| :: Disciplined(states[k], steps[k])
  }

  lemma InitSends(n: nat, v: int)
    requires 0 <= v < n
    ensures SentUp(Init(n), v)
  {
  }

  lemma {:induction false} RunSends(n: nat, states: seq<Cluster>, steps: seq<Step>, k: int, v: int)
    requires DisciplinedRun(n, states, steps) && 0 <= k < |states| && 0 <= v < n
    ensures SentUp(states[k], v)
    decreases k
  {
    hide Inv, SentUp, Perform, Enabled, HasPast, Disciplined, Init;
    if k == 0 {
      InitSends(n, v);
    } else {
      RunSends(n, states, steps, k - 1, v);
      RunKeeps(n, states, steps, k - 1);
      assert Next(states[k - 1], steps[k - 1], states[k]);
      assert Disciplined(states[k - 1], steps[k - 1]);
      StepSends(states[k - 1], steps[k - 1], v);
    }
  }

  // ----- what the order means --------------------------------------------------------------

  lemma {:induction false} HighBounds(msgs: seq<ApplyMsg>, k: int)
    requires 0 <= k < |msgs|
    ensures msgs[k].index <= High(msgs)
    decreases |msgs|
  {
    if k < |msgs| - 1 {
      HighBounds(msgs[..|msgs| - 1], k);
    }
  }

  /** Commands come in strictly increasing order: none is repeated. */
  lemma CommandsIncrease(msgs: seq<ApplyMsg>, a: int, b: int)
    requires InOrder(msgs) && 0 <= a < b < |msgs| && msgs[a].Command? && msgs[b].Command?
    ensures msgs[a].index < msgs[b].index
  {
    HighBounds(msgs[..b], a);
  }

  lemma {:induction false} HighReached(msgs: seq<ApplyMsg>) returns (a: int)
    requires High(msgs) != 0
    ensures 0 <= a < |msgs| && msgs[a].index == High(msgs)
    decreases |msgs|
  {
    if msgs[|msgs| - 1].index == High(msgs) {
      a := |msgs| - 1;
    } else {
      a := HighReached(msgs[..|msgs| - 1]);
    }
  }

  /** A command follows on exactly from an earlier command or snapshot, unless it is the first entry of all. */
  lemma CommandFollows(msgs: seq<ApplyMsg>, b: int) returns (a: int)
    requires InOrder(msgs) && 0 <= b < |msgs| && msgs[b].Command? && msgs[b].index != 1
    ensures 0 <= a < b && msgs[a].index == msgs[b].index - 1
  {
    a := HighReached(msgs[..b]);
  }

  /** The message is the command at index i, or a snapshot that covers i. */
  ghost predicate Accounts(m: ApplyMsg, i: int) {
    (m.Command? && m.index == i) || (m.Snapshot? && m.index >= i)
  }

  ghost predicate AccountedBefore(msgs: seq<ApplyMsg>, b: int, i: int)
    requires 0 <= b <= |msgs|
  {
    exists c | 0 <= c < b :: Accounts(msgs[c], i)
  }

  /** Every index up to the highest was sent up as a command, or lies under a snapshot that was. */
  lemma {:induction false} EveryIndexAccounted(msgs: seq<ApplyMsg>, i: int) returns (a: int)
    requires InOrder(msgs) && 1 <= i <= High(msgs)
    ensures 0 <= a < |msgs| && Accounts(msgs[a], i)
    decreases |msgs|
  {
    var before, last := msgs[..|msgs| - 1], msgs[|msgs| - 1];
    if i <= High(before) {
      assert forall k | 0 <= k < |before| :: before[..k] == msgs[..k];
      a := EveryIndexAccounted(before, i);
    } else {
      a := |msgs| - 1;
      assert last.Command? ==> last.index == High(before) + 1;
    }
  }

  /**
    The apply stream of any server in any run: a command's index is beyond every index sent before
    it, none repeats, and the indices left out lie under snapshots that were sent up.
  */
  lemma ApplyStream(n: nat, states: seq<Cluster>, steps: seq<Step>, k: int, v: int, a: int, b: int)
    requires DisciplinedRun(n, states, steps) && 0 <= k < |states| && 0 <= v < n && v < |states[k].stream|
    requires 0 <= a < b < |states[k].stream[v]| && states[k].stream[v][b].Command?
    ensures states[k].stream[v][a].index < states[k].stream[v][b].index
    ensures forall i | 1 <= i < states[k].stream[v][b].index :: AccountedBefore(states[k].stream[v], b, i)
  {
    RunSends(n, states, steps, k, v);
    var msgs := states[k].stream[v];
    hide IsRun, Inv;
    HighBounds(msgs[..b], a);
    assert forall c | 0 <= c < b :: msgs[..b][..c] == msgs[..c];
    assert InOrder(msgs[..b]);
    forall i | 1 <= i < msgs[b].index ensures AccountedBefore(msgs, b, i) {
      var c := EveryIndexAccounted(msgs[..b], i);
      assert msgs[..b][c] == msgs[c];
    }
  }

  /** A snapshot is sent up even when it covers less than was already applied: exactly when its index lies between. */
  lemma SnapshotBehindApplied(nd: Node, args: SnapArgs)
    requires args.term >= nd.term && (LastIndex(nd) > args.lastIndex > nd.snapIndex ==> HasSlot(nd, args.lastIndex))
    ensures InstallSnapshot(nd, args).2 != [] && args.lastIndex < InstallSnapshot(nd, args).0.lastApplied <==>
      nd.snapIndex < args.lastIndex < nd.lastApplied
  {
  }
}
