/**
  Every run, clean or not: the invariant, and what follows from it across the states of a run.
*/
module RaftSafety {
  import opened RaftLog
  import opened RaftHistory
  import opened RaftNode
  import opened RaftCluster
  import opened RaftInvariant
  import opened RaftElectionSteps
  import opened RaftReplicationSteps
  import opened RaftSnapshotSteps

  /** An AppendEntries whose previous index the receiver has already compacted away. */
  predicate StaleAppend(s: Cluster, step: Step)
    requires Enabled(s, step)
  {
    step.DeliverAppend? &&
    var nd, args := s.nodes[step.appendCall.to], step.appendCall.args;
    args.term >= nd.term && args.prevIndex < nd.snapIndex
  }

  lemma ActorUp(s: Cluster, step: Step)
    requires Inv(s) && Enabled(s, step)
    ensures 0 <= Actor(step) < |s.nodes| && HasPast(s, Actor(step))
  {
    hide NodesOk, ElectionsOk, ReplicationOk, SnapshotsOk, Sound, SelfAcks;
    PastSized(s);
  }

  /** What a step of server i keeps; it exits just if `exits`. */
  ghost predicate Kept(s: Cluster, s': Cluster, i: int, exits: bool) {
    Inv(s') && Grows(s.past, s'.past) && 0 <= i < |s'.nodes| && (!s'.nodes[i].alive <==> exits)
  }

  lemma KeptSize(s: Cluster, s': Cluster, i: int, exits: bool)
    requires Inv(s) && Kept(s, s', i, exits)
    ensures Inv(s') && Grows(s.past, s'.past) && |s'.nodes| == |s.nodes| && 0 <= i < |s.nodes| && (!s'.nodes[i].alive <==> exits)
  {
    GrowsSized(s.past, s'.past);
    PastSized(s);
    PastSized(s');
    hide NodesOk, ElectionsOk, ReplicationOk, SnapshotsOk, PastOk, Grows;
  }

  lemma DeliverAppendKeeps(s: Cluster, call: AppendCall)
    requires Inv(s) && Enabled(s, DeliverAppend(call)) && HasPast(s, call.to)
    ensures Kept(s, Perform(s, DeliverAppend(call)), call.to, StaleAppend(s, DeliverAppend(call)))
  {
    hide Inv, Grows;
    DeliverAppendInv(s, call);
  }

  lemma OtherKeeps(s: Cluster, step: Step)
    requires Inv(s) && Enabled(s, step) && HasPast(s, Actor(step)) && !step.DeliverAppend?
    ensures Kept(s, Perform(s, step), Actor(step), false)
  {
    hide Inv, Grows, HasPast, NodeOk, Sound, SelfAcks, OnlyTouches;
    ActorUp(s, step);
    InvNode(s, Actor(step));
    NothingNew(s.past, Actor(step));
    match step
    case Elect(i) => ElectInv(s, i);
    case DeliverVote(call) => DeliverVoteInv(s, call);
    case TakeVote(answer) => TakeVoteInv(s, answer);
    case Propose(i, command) => ProposeInv(s, i, command);
    case HeartBeat(i) => HeartBeatInv(s, i);
    case TakeAppend(answer) => TakeAppendInv(s, answer);
    case Compact(i, index, data) => CompactInv(s, i, index, data);
    case SendSnapshot(task) => SendSnapshotInv(s, task);
    case DeliverSnapshot(call) => DeliverSnapshotInv(s, call);
    case TakeSnapshotAnswer(answer) => TakeSnapshotAnswerInv(s, answer);
    case Deliver(i) => DeliverInv(s, i);
  }

  /**
    Every step of every run keeps the invariant, and a server exits on an assertion exactly when an
    AppendEntries reaches behind its snapshot: every other assertion holds.
  */
  lemma StepKeeps(s: Cluster, step: Step)
    requires Inv(s) && Enabled(s, step)
    ensures HasPast(s, Actor(step)) && Inv(Perform(s, step)) && Grows(s.past, Perform(s, step).past)
    ensures |Perform(s, step).nodes| == |s.nodes| && Actor(step) < |s.nodes|
    ensures !Perform(s, step).nodes[Actor(step)].alive <==> StaleAppend(s, step)
  {
    ActorUp(s, step);
    hide Inv, Grows, HasPast, Kept, Perform, StaleAppend;
    match step
    case DeliverAppend(call) => DeliverAppendKeeps(s, call);
    case _ => OtherKeeps(s, step);
    KeptSize(s, Perform(s, step), Actor(step), StaleAppend(s, step));
  }

  lemma OthersUntouched(s: Cluster, step: Step, v: int)
    requires Inv(s) && Enabled(s, step) && HasPast(s, Actor(step))
    requires 0 <= v < |s.nodes| == |Perform(s, step).nodes| && v != Actor(step)
    ensures Perform(s, step).nodes[v] == s.nodes[v]
  {
    hide Inv, Raise, RaftHistory.Elect, CastVote, Accept, Install, Win, Merged, Covered, AppendEntries, InstallSnapshot, GetApplyLogs, CountAppend, CountVote, TakeSnapshot;
  }

  // ----- runs ------------------------------------------------------------------------------

  /** Every state of every run satisfies the invariant; no enabled step is lost for want of history. */
  lemma {:induction false} RunKeeps(n: nat, states: seq<Cluster>, steps: seq<Step>, k: int)
    requires IsRun(n, states, steps) && 0 <= k < |states|
    ensures Inv(states[k]) && |states[k].nodes| == n
    decreases k
  {
    hide Inv, Perform, Grows, Enabled;
    if k == 0 {
      InitInv(n);
    } else {
      RunKeeps(n, states, steps, k - 1);
      assert Next(states[k - 1], steps[k - 1], states[k]);
      StepKeeps(states[k - 1], steps[k - 1]);
    }
  }

  lemma {:induction false} RunGrows(n: nat, states: seq<Cluster>, steps: seq<Step>, k: int, m: int)
    requires IsRun(n, states, steps) && 0 <= k <= m < |states|
    ensures Grows(states[k].past, states[m].past)
    decreases m
  {
    hide Inv, Perform, Grows, Enabled, OnlyTouches, NodeOk, Sound, SelfAcks;
    RunKeeps(n, states, steps, k);
    if k < m {
      RunGrows(n, states, steps, k, m - 1);
      RunKeeps(n, states, steps, m - 1);
      assert Next(states[m - 1], steps[m - 1], states[m]);
      StepKeeps(states[m - 1], steps[m - 1]);
      GrowsTransitive(states[k].past, states[m - 1].past, states[m].past);
    } else {
      HasServers(n, states, steps);
      InvNode(states[k], 0);
      NothingNew(states[k].past, 0);
    }
  }

  lemma HasServers(n: nat, states: seq<Cluster>, steps: seq<Step>)
    requires IsRun(n, states, steps)
    ensures n > 0
  {
  }

  /** A server exits at a step of a run exactly when that step hands it a stale AppendEntries. */
  lemma ExitsOnlyBehindSnapshot(n: nat, states: seq<Cluster>, steps: seq<Step>, k: int, v: int)
    requires IsRun(n, states, steps) && 0 <= k < |steps| && 0 <= v < n
    ensures Enabled(states[k], steps[k]) && |states[k].nodes| == |states[k + 1].nodes| == n
    ensures states[k].nodes[v].alive && !states[k + 1].nodes[v].alive <==>
      Actor(steps[k]) == v && StaleAppend(states[k], steps[k])
  {
    hide Inv, Perform, Grows, StaleAppend;
    RunKeeps(n, states, steps, k);
    RunKeeps(n, states, steps, k + 1);
    assert Next(states[k], steps[k], states[k + 1]);
    StepKeeps(states[k], steps[k]);
    ActorAlive(states[k], steps[k]);
    if v != Actor(steps[k]) {
      OthersUntouched(states[k], steps[k], v);
    }
  }

  lemma ActorAlive(s: Cluster, step: Step)
    requires Enabled(s, step)
    ensures Up(s, Actor(step))
  {
  }

  // ----- Election Safety -------------------------------------------------------------------

  lemma LeaderReigns(s: Cluster, i: int)
    requires Inv(s) && 0 <= i < |s.nodes| && s.nodes[i].status == Leader
    ensures s.nodes[i].term in s.past.reign && s.past.reign[s.nodes[i].term].leader == i
  {
    hide Inv, Represents, IndexSpace, VoteKnown, Sound, SelfAcks;
    InvNode(s, i);
  }

  lemma ReignKept(h: History, h': History, t: int)
    requires Grows(h, h') && t in h.reign
    ensures t in h'.reign && ReignGrows(t, h.reign[t], h'.reign[t])
  {
  }

  /** At most one server ever leads a term: two leaders of one term, at any two moments of a run, are the same server. */
  lemma ElectionSafety(n: nat, states: seq<Cluster>, steps: seq<Step>, k: int, m: int, i: int, j: int)
    requires IsRun(n, states, steps) && 0 <= k < |states| && 0 <= m < |states|
    requires 0 <= i < n && 0 <= j < n && |states[k].nodes| == |states[m].nodes| == n
    requires states[k].nodes[i].status == Leader && states[m].nodes[j].status == Leader
    requires states[k].nodes[i].term == states[m].nodes[j].term
    ensures i == j
    decreases k > m
  {
    hide Inv, Grows, IsRun;
    if k > m {
      ElectionSafety(n, states, steps, m, k, j, i);
    } else {
      RunKeeps(n, states, steps, k);
      RunKeeps(n, states, steps, m);
      RunGrows(n, states, steps, k, m);
      LeaderReigns(states[k], i);
      LeaderReigns(states[m], j);
      ReignKept(states[k].past, states[m].past, states[k].nodes[i].term);
    }
  }

  // ----- Entry uniqueness ------------------------------------------------------------------

  /** The entry is in some server's log or in some AppendEntries sent so far. */
  ghost predicate InCluster(s: Cluster, e: Entry) {
    || (exists v :: 0 <= v < |s.nodes| && e in s.nodes[v].logs)
    || (exists c :: c in s.appendCalls && e in c.args.entries)
  }

  ghost predicate OfItsReign(h: History, e: Entry) {
    e.term in h.reign && 0 <= e.index < |h.reign[e.term].log| && h.reign[e.term].log[e.index] == e
  }

  lemma SourcedAt(h: History, log: Log, i: int)
    requires Shaped(log) && Sourced(h, log) && 0 <= i < |log|
    ensures OfItsReign(h, log[i])
  {
  }

  lemma LoggedOfReign(h: History, nd: Node, v: int, e: Entry)
    requires Sound(h) && Sized(h) && 0 <= v < |h.log| && NodeOk(h, nd, v) && e in nd.logs
    ensures OfItsReign(h, e)
  {
    hide Sound, NodeOk, Sourced, OfItsReign, Shaped;
    KeptGood(h, nd, v);
    var k :| 0 <= k < |nd.logs| && nd.logs[k] == e;
    SourcedAt(h, h.log[v], nd.snapIndex + 1 + k);
  }

  lemma KeptGood(h: History, nd: Node, v: int)
    requires Sound(h) && Sized(h) && 0 <= v < |h.log| && NodeOk(h, nd, v)
    ensures Shaped(h.log[v]) && Sourced(h, h.log[v])
    ensures 0 <= nd.snapIndex < |h.log[v]| && nd.logs == h.log[v][nd.snapIndex + 1..]
  {
    assert GoodLog(h, v);
  }

  lemma ReignGood(h: History, t: int)
    requires Sound(h) && t in h.reign
    ensures Shaped(h.reign[t].log) && Sourced(h, h.reign[t].log) && TermsUpTo(h.reign[t].log, t)
  {
    assert GoodReign(h, t);
  }

  lemma SentOfReign(h: History, call: AppendCall, e: Entry)
    requires Sound(h) && FromReign(h, call) && e in call.args.entries
    ensures OfItsReign(h, e)
  {
    hide Sound, Sourced, OfItsReign, Shaped, TermsUpTo;
    ReignGood(h, call.args.term);
    var k :| 0 <= k < |call.args.entries| && call.args.entries[k] == e;
    SourcedAt(h, h.reign[call.args.term].log, call.args.prevIndex + 1 + k);
  }

  lemma InClusterOfReign(s: Cluster, e: Entry)
    requires Inv(s) && InCluster(s, e)
    ensures OfItsReign(s.past, e)
  {
    hide Inv, Sound, NodeOk, FromReign, AppendCallOk, SelfAcks, OfItsReign;
    if v :| 0 <= v < |s.nodes| && e in s.nodes[v].logs {
      InvNode(s, v);
      LoggedOfReign(s.past, s.nodes[v], v, e);
    } else {
      var c :| c in s.appendCalls && e in c.args.entries;
      InvAppendCall(s, c);
      CallFromReign(s.past, s.rounds, c);
      InvSized(s);
      SentOfReign(s.past, c, e);
    }
  }

  /**
    An index and a term name one entry, over all logs and all AppendEntries of a run, at any two
    moments: even stale tails never hold another command.
  */
  lemma EntryUniqueness(n: nat, states: seq<Cluster>, steps: seq<Step>, k: int, m: int, e: Entry, f: Entry)
    requires IsRun(n, states, steps) && 0 <= k < |states| && 0 <= m < |states|
    requires InCluster(states[k], e) && InCluster(states[m], f) && e.index == f.index && e.term == f.term
    ensures e == f
    decreases k > m
  {
    hide Inv, Grows, IsRun, InCluster;
    if k > m {
      EntryUniqueness(n, states, steps, m, k, f, e);
    } else {
      RunKeeps(n, states, steps, k);
      RunKeeps(n, states, steps, m);
      RunGrows(n, states, steps, k, m);
      InClusterOfReign(states[k], e);
      InClusterOfReign(states[m], f);
      ReignKept(states[k].past, states[m].past, e.term);
    }
  }

  // ----- Index space -----------------------------------------------------------------------

  /** In every run every server's indices are contiguous and in order, a leader's peer indices inside its log. */
  lemma IndexSpaceAlways(n: nat, states: seq<Cluster>, steps: seq<Step>, k: int, v: int)
    requires IsRun(n, states, steps) && 0 <= k < |states| && 0 <= v < n
    ensures |states[k].nodes| == n && IndexSpace(states[k].nodes[v], n)
  {
    hide Inv, IsRun, Represents, VoteKnown, Leads, Sound, SelfAcks, IndexSpace;
    RunKeeps(n, states, steps, k);
    InvNode(states[k], v);
  }
}
