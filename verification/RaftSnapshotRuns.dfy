/**
  Two runs of three servers that come to the two guards about snapshots: a delayed AppendEntries
  from before a server's snapshot, which makes it exit, and an InstallSnapshot that is not clean.
  Up to there both runs are clean.
*/
module RaftSnapshotRuns {
  import opened RaftLog
  import opened RaftHistory
  import opened RaftConsensus
  import opened RaftNode
  import opened RaftCluster
  import opened RaftSafety
  import opened RaftClean
  import opened RaftRuns
  import opened RaftTheorems

  const A := Entry(1, 1, "a")
  const B := Entry(2, 1, "b")
  const C := Entry(3, 1, "c")
  const X := Entry(1, 2, "x")
  const NOUGHTS: seq<int> := [0, 0, 0]

  function Leading(term: int, me: int, logs: seq<Entry>, commit: int, next: seq<int>, matched: seq<int>): Node {
    Node(true, term, me, Leader, logs, commit, 0, next, matched, 0, 0, "")
  }

  function Following(term: int, votedFor: int, logs: seq<Entry>, commit: int): Node {
    Node(true, term, votedFor, Follower, logs, commit, 0, NOUGHTS, NOUGHTS, 0, 0, "")
  }

  /** Server 0 is elected in term 1 by server 1 and takes in a. */
  lemma FirstLeader() returns (s: Cluster)
    ensures Reachable(s, true)
    ensures s.nodes == [Leading(1, 0, [A], 0, [1, 1, 1], NOUGHTS), Following(1, 0, [], 0), Following(0, NOBODY, [], 0)]
    ensures |s.stream| == 3
  {
    hide Reachable;
    Starts(3, true);
    s := Init(3);
    assert Fresh(3) == Following(0, NOBODY, [], 0);
    s := Stands(s, true, 0);
    var ballot := VoteArgs(1, 0, 0, 0);
    assert Ballot(s.nodes[0], 0) == ballot;
    s := VotesAndCounts(s, true, VoteCall(1, ballot), 0, (0, 1));
    assert s.nodes[0] == Leading(1, 0, [], 0, [1, 1, 1], NOUGHTS);
    s := Proposes(s, true, 0, "a");
    assert s.nodes[0] == Leading(1, 0, [A], 0, [1, 1, 1], NOUGHTS);
  }

  // ----- an AppendEntries from before the snapshot -----------------------------------------

  const FIRST := AppendArgs(1, 0, 0, 0, [A], 0)
  const SECOND := AppendArgs(1, 0, 1, 1, [], 1)

  lemma CopiesFirst()
    ensures AppendEntries(Following(1, 0, [], 0), FIRST) == (Following(1, 0, [A], 0), AppendReply(1, true, 0))
    ensures CleanAppend(Following(1, 0, [], 0), FIRST)
    ensures AppendEntries(Following(1, 0, [A], 0), SECOND) == (Following(1, 0, [A], 1), AppendReply(1, true, 0))
    ensures CleanAppend(Following(1, 0, [A], 0), SECOND)
  {
    assert [A][1..] == [] && [] + [A] == [A];
    assert MergeEntries([A], 0, []) == Some([A]);
    assert MergeEntries([], 0, [A]) == Some([A]);
  }

  /** The first heartbeat is delayed; the second is answered, and the leader commits. */
  lemma FirstDelayed() returns (s: Cluster, delayed: AppendCall)
    ensures Reachable(s, true) && |s.stream| == 3
    ensures delayed.to == 1 && delayed.args == FIRST && delayed in s.appendCalls
    ensures s.nodes == [Leading(1, 0, [A], 1, [1, 2, 1], [0, 1, 0]), Following(1, 0, [A], 0), Following(0, NOBODY, [], 0)]
  {
    hide Reachable, CleanAppend;
    s := FirstLeader();
    assert HeartBeatTo(s.nodes[0], 0, 1) == Append(FIRST);
    assert HeartBeatTo(s.nodes[0], 0, 2) == Append(FIRST);
    delayed := AppendCall(|s.rounds|, 1, FIRST);
    s := Beats(s, true, 0);
    var round := |s.rounds|;
    s := Beats(s, true, 0);
    CopiesFirst();
    s := AppendsAndCounts(s, true, AppendCall(round, 1, FIRST), 0);
    assert s.nodes[0] == Leading(1, 0, [A], 1, [1, 2, 1], [0, 1, 0]);
  }

  const COMPACTED := Node(true, 1, 0, Follower, [], 1, 1, NOUGHTS, NOUGHTS, 1, 1, "")

  lemma Compacted()
    ensures GetApplyLogs(Following(1, 0, [A], 1)).0 == Following(1, 0, [A], 1).(lastApplied := 1)
    ensures TakeSnapshot(Following(1, 0, [A], 1).(lastApplied := 1), 1, "") == COMPACTED
  {
    var nd := Following(1, 0, [A], 1);
    var nd' := nd.(lastApplied := 1);
    assert DrainCommitted(nd') == (nd', []);
    assert HasSlot(nd, 1) && EntryAt(nd, 1) == A;
    assert [A][1..] == [];
    assert HasSlot(nd', 1) && EntryAt(nd', 1) == A;
  }

  /**
    The exit happens: in a clean run a server that has compacted index 1 gets the delayed
    AppendEntries with previous index 0, and does not live through it.
  */
  lemma StaleAppendHappens() returns (s: Cluster, call: AppendCall, s': Cluster)
    ensures Reachable(s, true) && Enabled(s, DeliverAppend(call)) && StaleAppend(s, DeliverAppend(call))
    ensures Next(s, DeliverAppend(call), s') && |s'.nodes| == 3 && !s'.nodes[1].alive
  {
    hide Reachable, GetApplyLogs, TakeSnapshot, CleanAppend;
    s, call := FirstDelayed();
    var round := |s.rounds|;
    assert [A][1..] == [];
    assert HeartBeatTo(s.nodes[0], 0, 1) == Append(SECOND);
    assert HeartBeatTo(s.nodes[0], 0, 2) == Append(FIRST.(leaderCommit := 1));
    s := Beats(s, true, 0);
    CopiesFirst();
    s := Appends(s, true, AppendCall(round, 1, SECOND));
    Compacted();
    s := SendsUp(s, true, 1);
    s := Compacts(s, true, 1, 1, "");
    Continues(s, false, DeliverAppend(call)) by {
      AnyRun(s);
      Deliverable(s, call);
    }
    s' := Perform(s, DeliverAppend(call));
  }

  /** A clean run is a run. */
  lemma AnyRun(s: Cluster)
    requires Reachable(s, true)
    ensures Reachable(s, false)
  {
    var n, states, steps :| EndsIn(n, states, steps, s, true);
    assert EndsIn(n, states, steps, s, false);
  }

  lemma Deliverable(s: Cluster, call: AppendCall)
    requires call in s.appendCalls && Up(s, call.to)
    ensures Enabled(s, DeliverAppend(call))
  {
  }

  // ----- an InstallSnapshot that is not clean ----------------------------------------------

  const OVER := AppendArgs(2, 1, 0, 0, [X], 0)

  /** Server 0 takes in b and c too; server 1 is elected in term 2 by server 2 and takes in x. */
  lemma SecondLeader() returns (s: Cluster)
    ensures Reachable(s, true) && |s.stream| == 3
    ensures s.nodes == [Leading(1, 0, [A, B, C], 0, [1, 1, 1], NOUGHTS), Leading(2, 1, [X], 0, [1, 1, 1], NOUGHTS),
                        Following(2, 1, [], 0)]
  {
    hide Reachable;
    s := FirstLeader();
    s := Proposes(s, true, 0, "b");
    s := Proposes(s, true, 0, "c");
    assert s.nodes[0] == Leading(1, 0, [A, B, C], 0, [1, 1, 1], NOUGHTS);
    s := Stands(s, true, 1);
    var ballot := VoteArgs(2, 1, 0, 0);
    assert Ballot(s.nodes[1], 1) == ballot;
    s := VotesAndCounts(s, true, VoteCall(2, ballot), 1, (1, 2));
    assert s.nodes[1] == Leading(2, 1, [], 0, [1, 1, 1], NOUGHTS);
    s := Proposes(s, true, 1, "x");
    assert s.nodes[1] == Leading(2, 1, [X], 0, [1, 1, 1], NOUGHTS);
  }

  lemma CopiesX()
    ensures AppendEntries(Following(2, 1, [], 0), OVER) == (Following(2, 1, [X], 0), AppendReply(2, true, 0))
    ensures CleanAppend(Following(2, 1, [], 0), OVER)
  {
    assert [X][1..] == [] && [] + [X] == [X];
    assert MergeEntries([X], 0, []) == Some([X]);
    assert MergeEntries([], 0, [X]) == Some([X]);
  }

  const SNAPPED := Node(true, 2, 1, Leader, [], 1, 1, [1, 1, 2], [0, 0, 1], 1, 2, "s")

  lemma SnapshotOfX()
    ensures TakeSnapshot(Leading(2, 1, [X], 1, [1, 1, 2], [0, 0, 1]), 1, "s") == SNAPPED
  {
    var nd := Leading(2, 1, [X], 1, [1, 1, 2], [0, 0, 1]);
    assert HasSlot(nd, 1) && EntryAt(nd, 1) == X;
    assert [X][1..] == [];
  }

  /** Servers 1 and 2 hold x, server 1 has committed and compacted it, and sends server 0 its snapshot. */
  lemma SnapshotSent() returns (s: Cluster, call: SnapCall)
    ensures Reachable(s, true) && call in s.snapCalls
    ensures call.task.to == 0 && call.args == SnapArgs(2, 1, 1, 2, "s")
    ensures s.nodes == [Leading(1, 0, [A, B, C], 0, [1, 1, 1], NOUGHTS), SNAPPED, Following(2, 1, [X], 0)]
  {
    hide Reachable, CleanAppend, TakeSnapshot;
    s := SecondLeader();
    var round := |s.rounds|;
    assert HeartBeatTo(s.nodes[1], 1, 0) == Append(OVER) && HeartBeatTo(s.nodes[1], 1, 2) == Append(OVER);
    s := Beats(s, true, 1);
    CopiesX();
    s := AppendsAndCounts(s, true, AppendCall(round, 2, OVER), 1);
    assert s.nodes[1] == Leading(2, 1, [X], 1, [1, 1, 2], [0, 0, 1]);
    SnapshotOfX();
    s := Compacts(s, true, 1, 1, "s");
    round := |s.rounds|;
    assert HeartBeatTo(s.nodes[1], 1, 0) == Outgoing.SendSnapshot;
    assert HeartBeatTo(s.nodes[1], 1, 2).Append?;
    s := Beats(s, true, 1);
    s, call := SendsSnapshot(s, true, SnapTask(round, 1, 0));
  }

  /** Server i of s' has b and c behind the snapshot of x, and a log that is not matched. */
  ghost predicate EndsUnmatched(s: Cluster, i: int) {
    && 0 <= i < |s.nodes| && i < |s.past.log|
    && s.nodes[i].logs == [B, C] && s.nodes[i].snapIndex == 1 && s.nodes[i].snapTerm == 2
    && !Matched(s.past, s.past.log[i])
  }

  /**
    The other failing side happens too: after a clean run a snapshot of x reaches a server that holds
    a, b and c of an earlier term.  It keeps b and c behind x, and its log is matched no more.
  */
  lemma UncleanInstallHappens() returns (s: Cluster, call: SnapCall, s': Cluster)
    ensures Reachable(s, true) && Enabled(s, DeliverSnapshot(call)) && !Clean(s, DeliverSnapshot(call))
    ensures Next(s, DeliverSnapshot(call), s') && EndsUnmatched(s', 0)
  {
    hide Reachable, CleanInv, Matched, CleanInstall, InstallSnapshot, PastOfInstall;
    s, call := SnapshotSent();
    ReachedCleanly(s);
    NotClean(s.nodes[0]);
    Continues(s, false, DeliverSnapshot(call)) by {
      AnyRun(s);
    }
    s' := Perform(s, DeliverSnapshot(call));
    InstallMatchedIffClean(s, call);
  }

  lemma NotClean(nd: Node)
    requires nd == Leading(1, 0, [A, B, C], 0, [1, 1, 1], NOUGHTS)
    ensures !CleanInstall(nd, SnapArgs(2, 1, 1, 2, "s"))
    ensures var nd' := InstallSnapshot(nd, SnapArgs(2, 1, 1, 2, "s")).0;
      nd'.logs == [B, C] && nd'.snapIndex == 1 && nd'.snapTerm == 2
  {
    assert HasSlot(nd, 1) && EntryAt(nd, 1) == A;
    assert [A, B, C][1..] == [B, C];
  }
}
