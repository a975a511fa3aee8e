/**
  What the service model takes for granted of Raft: in a clean disciplined run there is one log of
  commands such that every server is sent a legal sequence of its deliveries and installed snapshots,
  each step allowed by the very guards of the service, and each command the log's own.
*/
module ServiceOrder {
  import opened RaftLog
  import opened RaftHistory
  import opened RaftConsensus
  import opened RaftNode
  import opened RaftCluster
  import opened RaftInvariant
  import opened RaftSafety
  import opened RaftApply
  import opened RaftClean
  import opened RaftCleanMerge
  import opened RaftTheorems
  import KV = KvStore
  import S = KvService

  // ----- legal sequences -------------------------------------------------------------------

  /** The service's server after what was sent up, a snapshot counted when Raft installs it. */
  function After(log: seq<KV.Op>, v: S.Server, msgs: seq<ApplyMsg>, unpack: string -> KV.Store): S.Server {
    if msgs == [] then v
    else
      var u := After(log, v, msgs[..|msgs| - 1], unpack);
      match msgs[|msgs| - 1]
      case Command(index, _) => if 1 <= index <= |log| then S.Receive(u, log[index - 1], index) else u
      case Snapshot(index, _, data) => if index >= 0 then S.Installed(u, S.Snap(index, unpack(data))) else u
  }

  /** The guards of the service's `Deliver` and `RaftInstall`, and the command at its place in the log. */
  predicate Allowed(log: seq<KV.Op>, v: S.Server, m: ApplyMsg, parse: string -> KV.Op) {
    match m
    case Command(index, command) => index >= 1 && S.Deliverable(log, v, index) && log[index - 1] == parse(command)
    case Snapshot(index, _, _) => v.installed < index <= |log|
  }

  predicate Legal(log: seq<KV.Op>, v: S.Server, msgs: seq<ApplyMsg>, parse: string -> KV.Op, unpack: string -> KV.Store) {
    msgs == [] ||
    (var n := |msgs| - 1;
     Legal(log, v, msgs[..n], parse, unpack) && Allowed(log, After(log, v, msgs[..n], unpack), msgs[n], parse))
  }

  // ----- the order of snapshots ------------------------------------------------------------

  /** The highest snapshot index sent up. */
  function SnapHigh(msgs: seq<ApplyMsg>): int {
    if msgs == [] then 0
    else
      var m := msgs[|msgs| - 1];
      if m.Snapshot? then Max(SnapHigh(msgs[..|msgs| - 1]), m.index) else SnapHigh(msgs[..|msgs| - 1])
  }

  /** Every snapshot is newer than those before it. */
  ghost predicate SnapsRise(msgs: seq<ApplyMsg>) {
    forall k | 0 <= k < |msgs| && msgs[k].Snapshot? :: msgs[k].index > SnapHigh(msgs[..k])
  }

  lemma SnapsOne(msgs: seq<ApplyMsg>, m: ApplyMsg)
    requires SnapsRise(msgs) && (m.Snapshot? ==> m.index > SnapHigh(msgs))
    ensures SnapsRise(msgs + [m])
    ensures SnapHigh(msgs + [m]) == if m.Snapshot? then m.index else SnapHigh(msgs)
  {
    var more := msgs + [m];
    assert more[..|msgs|] == msgs;
    forall k | 0 <= k < |more| && more[k].Snapshot? ensures more[k].index > SnapHigh(more[..k]) {
      assert k < |msgs| ==> more[..k] == msgs[..k];
    }
  }

  lemma {:induction false} SnapsCommands(msgs: seq<ApplyMsg>, more: seq<ApplyMsg>)
    requires SnapsRise(msgs) && forall m | m in more :: m.Command?
    ensures SnapsRise(msgs + more) && SnapHigh(msgs + more) == SnapHigh(msgs)
    decreases |more|
  {
    hide SnapsRise, SnapHigh;
    if more == [] {
      assert msgs + more == msgs;
    } else {
      var n := |more| - 1;
      assert more[n] in more && forall m | m in more[..n] :: m in more;
      SnapsCommands(msgs, more[..n]);
      SnapsOne(msgs + more[..n], more[n]);
      assert msgs + more == msgs + more[..n] + [more[n]];
    }
  }

  /** The snapshots sent up by v rise, up to its own snapshot index. */
  ghost predicate SnapSent(s: Cluster, v: int) {
    0 <= v < |s.nodes| == |s.stream| && SnapsRise(s.stream[v]) && SnapHigh(s.stream[v]) <= s.nodes[v].snapIndex
  }

  lemma {:induction false} DrainPlain(nd: Node)
    ensures DrainCommitted(nd).0.snapIndex == nd.snapIndex && forall m | m in DrainCommitted(nd).1 :: m.Command?
    decreases nd.commitIndex - nd.lastApplied
  {
    if nd.lastApplied < nd.commitIndex && HasSlot(nd, nd.lastApplied + 1) {
      DrainPlain(nd.(lastApplied := nd.lastApplied + 1));
    }
  }

  lemma DeliverSnaps(s: Cluster, i: int)
    requires Up(s, i) && HasPast(s, i) && SnapSent(s, i)
    ensures SnapSent(DoDeliver(s, i), i)
  {
    hide SnapsRise, SnapHigh, DrainCommitted;
    DrainPlain(s.nodes[i]);
    SnapsCommands(s.stream[i], GetApplyLogs(s.nodes[i]).1);
  }

  lemma InstallSnaps(s: Cluster, call: SnapCall)
    requires Enabled(s, DeliverSnapshot(call)) && HasPast(s, call.task.to) && SnapSent(s, call.task.to)
    ensures SnapSent(DoDeliverSnapshot(s, call), call.task.to)
  {
    hide SnapsRise, SnapHigh, PastOfInstall;
    var i := call.task.to;
    var nd, msgs := s.nodes[i], InstallSnapshot(s.nodes[i], call.args).2;
    if msgs == [] {
      assert s.stream[i] + [] == s.stream[i];
    } else {
      SnapsOne(s.stream[i], msgs[0]);
    }
  }

  lemma CompactSnaps(s: Cluster, i: int, index: int, data: string)
    requires Up(s, i) && SnapSent(s, i)
    ensures SnapSent(DoCompact(s, i, index, data), i)
  {
    hide SnapsRise, SnapHigh;
  }

  lemma AppendKeepsSnap(nd: Node, args: AppendArgs)
    ensures AppendEntries(nd, args).0.snapIndex == nd.snapIndex
  {
    hide MergeEntries, BackOff;
  }

  lemma CountKeepsSnap(nd: Node, n: nat, j: int, args: AppendArgs, reply: AppendReply, num: int)
    requires HasPeer(nd, j)
    ensures CountAppend(nd, n, j, args, reply, num).0.snapIndex == nd.snapIndex
  {
  }

  lemma OthersSnaps(s: Cluster, step: Step)
    requires Enabled(s, step) && HasPast(s, Actor(step)) && SnapSent(s, Actor(step))
    requires !step.Deliver? && !step.DeliverSnapshot? && !step.Compact?
    ensures SnapSent(Perform(s, step), Actor(step))
  {
    hide SnapsRise, SnapHigh, AppendEntries, CountAppend, PastOfAppend, PastOfVote, PastOfCount, Count, HeartBeatTo, Gets, Answers, NeedsSnapshot;
    match step
    case DeliverAppend(call) => AppendKeepsSnap(s.nodes[call.to], call.args);
    case TakeAppend(a) => CountKeepsSnap(s.nodes[a.call.args.leader], |s.nodes|, a.call.to, a.call.args, a.reply, s.rounds[a.call.round].tally.num);
    case _ =>
  }

  lemma ActorSnaps(s: Cluster, step: Step)
    requires Enabled(s, step) && HasPast(s, Actor(step)) && SnapSent(s, Actor(step))
    ensures SnapSent(Perform(s, step), Actor(step))
  {
    hide SnapSent, HasPast, DoElect, DoDeliverVote, DoTakeVote, DoPropose, DoHeartBeat, DoDeliverAppend, DoTakeAppend,
      DoCompact, DoSendSnapshot, DoDeliverSnapshot, DoTakeSnapshotAnswer, DoDeliver;
    match step
    case Deliver(i) => DeliverSnaps(s, i);
    case DeliverSnapshot(call) => InstallSnaps(s, call);
    case Compact(i, index, data) => UpNode(s, i); CompactSnaps(s, i, index, data);
    case _ => OthersSnaps(s, step);
  }

  lemma StepSnaps(s: Cluster, step: Step, v: int)
    requires Inv(s) && Enabled(s, step) && HasPast(s, Actor(step)) && SnapSent(s, v)
    ensures SnapSent(Perform(s, step), v)
  {
    if v == Actor(step) {
      hide Inv, SnapSent, Perform;
      ActorSnaps(s, step);
    } else {
      hide Inv, Perform, HasPast, SnapsRise, SnapHigh, Grows;
      StepKeeps(s, step);
      OthersUntouched(s, step, v);
      OthersStream(s, step, v);
    }
  }

  lemma InitSnaps(n: nat, v: int)
    requires 0 <= v < n
    ensures SnapSent(Init(n), v)
  {
  }

  lemma {:induction false} RunSnaps(n: nat, states: seq<Cluster>, steps: seq<Step>, k: int, v: int)
    requires IsRun(n, states, steps) && 0 <= k < |states| && 0 <= v < n
    ensures SnapSent(states[k], v)
    decreases k
  {
    hide Inv, SnapSent, Perform, Enabled, HasPast, Init;
    if k == 0 {
      InitSnaps(n, v);
    } else {
      RunSnaps(n, states, steps, k - 1, v);
      RunKeeps(n, states, steps, k - 1);
      assert Next(states[k - 1], steps[k - 1], states[k]);
      StepSnaps(states[k - 1], steps[k - 1], v);
    }
  }

  // ----- one stream ------------------------------------------------------------------------

  /** The messages speak of this log: within it, and each command as it has it. */
  ghost predicate Of(log: seq<KV.Op>, msgs: seq<ApplyMsg>, parse: string -> KV.Op) {
    forall m | m in msgs :: m.index <= |log| && (m.Command? && m.index >= 1 ==> log[m.index - 1] == parse(m.command))
  }

  lemma InOrderShorter(msgs: seq<ApplyMsg>)
    requires InOrder(msgs) && SnapsRise(msgs) && msgs != []
    ensures InOrder(msgs[..|msgs| - 1]) && SnapsRise(msgs[..|msgs| - 1])
  {
    var short := msgs[..|msgs| - 1];
    assert forall k | 0 <= k < |short| :: short[k] == msgs[k] && short[..k] == msgs[..k];
  }

  lemma ReceivedAt(v: S.Server, op: KV.Op, index: nat)
    ensures S.Receive(v, op, index).front == index && S.Receive(v, op, index).installed == v.installed
  {
  }

  /** A stream in order, of one log, is a legal sequence of the service. */
  lemma {:induction false} StreamIsLegal(log: seq<KV.Op>, msgs: seq<ApplyMsg>, parse: string -> KV.Op, unpack: string -> KV.Store)
    requires InOrder(msgs) && SnapsRise(msgs) && Of(log, msgs, parse)
    ensures Legal(log, S.FRESH, msgs, parse, unpack)
    ensures var v := After(log, S.FRESH, msgs, unpack);
      v.front <= High(msgs) && v.installed == SnapHigh(msgs) && S.Max(v.front, v.installed) == High(msgs)
    decreases |msgs|
  {
    hide S.Receive, InOrder, SnapsRise;
    if msgs != [] {
      var n := |msgs| - 1;
      InOrderShorter(msgs);
      assert forall m | m in msgs[..n] :: m in msgs;
      StreamIsLegal(log, msgs[..n], parse, unpack);
      LastInOrder(msgs);
      assert msgs[n] in msgs;
      var u := After(log, S.FRESH, msgs[..n], unpack);
      if msgs[n].Command? {
        ReceivedAt(u, log[msgs[n].index - 1], msgs[n].index);
      }
    }
  }

  lemma LastInOrder(msgs: seq<ApplyMsg>)
    requires InOrder(msgs) && SnapsRise(msgs) && msgs != []
    ensures var n := |msgs| - 1;
      && (msgs[n].Command? ==> msgs[n].index == High(msgs[..n]) + 1)
      && (msgs[n].Snapshot? ==> msgs[n].index > SnapHigh(msgs[..n]))
  {
  }

  // ----- one log ---------------------------------------------------------------------------

  /** The server that has committed most. */
  lemma {:induction false} MostCommitted(nodes: seq<Node>) returns (w: int)
    requires |nodes| > 0
    ensures 0 <= w < |nodes| && forall v | 0 <= v < |nodes| :: nodes[v].commitIndex <= nodes[w].commitIndex
    decreases |nodes|
  {
    if |nodes| == 1 {
      w := 0;
    } else {
      w := MostCommitted(nodes[..|nodes| - 1]);
      if nodes[|nodes| - 1].commitIndex > nodes[w].commitIndex {
        w := |nodes| - 1;
      }
    }
  }

  /** The commands of a committed prefix, as the service's log. */
  function OpsOf(log: Log, c: nat, parse: string -> KV.Op): (ops: seq<KV.Op>)
    requires c < |log|
    ensures |ops| == c && forall i | 0 <= i < c :: ops[i] == parse(log[i + 1].command)
  {
    seq(c, i requires 0 <= i < c => parse(log[i + 1].command))
  }

  /** A command sent up is the one any committed prefix that reaches it has. */
  lemma SentIs(h: History, m: ApplyMsg, p: Log, t: int)
    requires Steady(h) && SentCommitted(h, m) && m.Command? && Committed(h, p, t) && 0 <= m.index < |p|
    ensures p[m.index].command == m.command
  {
    hide Steady, Committed;
    var q: Log, u: int :| Committed(h, q, u) && 0 <= m.index < |q| && q[m.index].command == m.command;
    CommittedAgree(h, p, q, t, u, m.index);
  }

  lemma CommitOf(s: Cluster, w: int)
    requires CleanInv(s) && 0 <= w < |s.nodes|
    ensures w < |s.past.log| && 0 <= s.nodes[w].commitIndex < |s.past.log[w]|
    ensures Committed(s.past, s.past.log[w][..s.nodes[w].commitIndex + 1], s.nodes[w].term)
    ensures s.nodes[w].lastApplied <= s.nodes[w].commitIndex
  {
    assert CommitOk(s.past, s.nodes[w], w);
    InvNode(s, w);
    hide Inv, Steady, TrafficCommitted, Committed, Sound, SelfAcks;
  }

  /** What a server has sent up is of the log of whoever has committed most. */
  lemma StreamOf(s: Cluster, v: int, w: int, parse: string -> KV.Op)
    requires CleanInv(s) && SentUp(s, v) && 0 <= w < |s.nodes| && w < |s.past.log| && 0 <= s.nodes[w].commitIndex < |s.past.log[w]|
    requires s.nodes[v].commitIndex <= s.nodes[w].commitIndex
    ensures Of(OpsOf(s.past.log[w], s.nodes[w].commitIndex, parse), s.stream[v], parse)
  {
    hide CleanInv, Committed, Steady, SentCommitted, High, InOrder;
    CommitOf(s, v);
    CommitOf(s, w);
    var p, c := s.past.log[w][..s.nodes[w].commitIndex + 1], s.nodes[w].commitIndex;
    forall m | m in s.stream[v]
      ensures m.index <= c && (m.Command? && m.index >= 1 ==> OpsOf(s.past.log[w], c, parse)[m.index - 1] == parse(m.command))
    {
      var a :| 0 <= a < |s.stream[v]| && s.stream[v][a] == m;
      HighBounds(s.stream[v], a);
      if m.Command? && m.index >= 1 {
        SentTraffic(s, v, a);
        SentIs(s.past, m, p, s.nodes[w].term);
      }
    }
  }

  /**
    Raft serves the service: at any moment of a clean disciplined run there is one log such that what
    each server has been sent, in order, is a legal sequence of deliveries and installs over it.
  */
  lemma StreamsAreLegal(n: nat, states: seq<Cluster>, steps: seq<Step>, k: int, parse: string -> KV.Op, unpack: string -> KV.Store)
    returns (log: seq<KV.Op>)
    requires IsCleanRun(n, states, steps) && DisciplinedRun(n, states, steps) && 0 <= k < |states|
    ensures |states[k].stream| == n
    ensures forall v | 0 <= v < n :: Legal(log, S.FRESH, states[k].stream[v], parse, unpack)
  {
    hide IsCleanRun, CleanInv, Of, Legal, SnapsRise, InOrder, Next, High;
    var s := states[k];
    CleanRunKeeps(n, states, steps, k);
    RunKeeps(n, states, steps, k);
    HasServers(n, states, steps);
    InvSized(s);
    var w := MostCommitted(s.nodes);
    CommitOf(s, w);
    log := OpsOf(s.past.log[w], s.nodes[w].commitIndex, parse);
    forall v | 0 <= v < n ensures Legal(log, S.FRESH, s.stream[v], parse, unpack) {
      RunSends(n, states, steps, k, v);
      RunSnaps(n, states, steps, k, v);
      StreamOf(s, v, w, parse);
      StreamIsLegal(log, s.stream[v], parse, unpack);
    }
  }
}
