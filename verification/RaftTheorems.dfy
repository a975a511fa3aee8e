/**
  What clean runs guarantee (Log Matching, Leader Completeness, State Machine Safety), and the exact
  line: a delivery keeps Log Matching if and only if it is clean.
*/
module RaftTheorems {
  import opened RaftLog
  import opened RaftHistory
  import opened RaftConsensus
  import opened RaftNode
  import opened RaftCluster
  import opened RaftInvariant
  import opened RaftElectionSteps
  import opened RaftReplicationSteps
  import opened RaftSnapshotSteps
  import opened RaftSafety
  import opened RaftCommit
  import opened RaftClean
  import opened RaftCleanMerge

  // ----- clean runs ------------------------------------------------------------------------

  lemma CleanRunIsRun(n: nat, states: seq<Cluster>, steps: seq<Step>)
    requires IsCleanRun(n, states, steps)
    ensures IsRun(n, states, steps)
  {
  }

  lemma LogIsMatched(n: nat, states: seq<Cluster>, steps: seq<Step>, k: int, i: int)
    requires IsCleanRun(n, states, steps) && 0 <= k < |states| && 0 <= i < |states[k].past.log|
    ensures Matched(states[k].past, states[k].past.log[i])
  {
    hide IsCleanRun, CleanInv, Inv, Steady, CommitsOk, TrafficCommitted, Matched;
    CleanRunKeeps(n, states, steps, k);
    CleanFacts(states[k]);
    SteadySound(states[k].past);
    SteadyLog(states[k].past, i);
  }

  /**
    Log Matching: in a clean run, two logs, of any two servers at any two moments, that have the
    same term at an index are the same up to and including it, entries under a snapshot included.
  */
  lemma LogMatchingHolds(n: nat, states: seq<Cluster>, steps: seq<Step>, k: int, m: int, i: int, j: int, x: int)
    requires IsCleanRun(n, states, steps) && 0 <= k < |states| && 0 <= m < |states|
    requires 0 <= i < |states[k].past.log| && 0 <= j < |states[m].past.log|
    requires 0 <= x < |states[k].past.log[i]| && x < |states[m].past.log[j]|
    requires states[k].past.log[i][x].term == states[m].past.log[j][x].term
    ensures Agree(states[k].past.log[i], states[m].past.log[j], x)
    decreases k > m
  {
    hide IsCleanRun, Matched, Grows;
    if k > m {
      LogMatchingHolds(n, states, steps, m, k, j, i, x);
    } else {
      CleanRunIsRun(n, states, steps);
      RunGrows(n, states, steps, k, m);
      LogIsMatched(n, states, steps, k, i);
      LogIsMatched(n, states, steps, m, j);
      MatchedGrows(states[k].past, states[m].past, states[k].past.log[i]);
      LogMatching(states[m].past, states[k].past.log[i], states[m].past.log[j], x);
    }
  }

  lemma LeaderCommitted(n: nat, states: seq<Cluster>, steps: seq<Step>, k: int, i: int)
    requires IsCleanRun(n, states, steps) && 0 <= k < |states| && 0 <= i < n
    ensures Inv(states[k]) && Steady(states[k].past) && Sized(states[k].past)
    ensures |states[k].nodes| == |states[k].past.log| == |states[k].stream| == n && CommitOk(states[k].past, states[k].nodes[i], i)
    ensures states[k].nodes[i].term == states[k].past.term[i]
  {
    hide IsCleanRun, IsRun, CleanInv, Inv, Steady, TrafficCommitted, CommitOk, NodeOk, Sound, SelfAcks;
    CleanRunIsRun(n, states, steps);
    CleanRunKeeps(n, states, steps, k);
    RunKeeps(n, states, steps, k);
    CleanFacts(states[k]);
    InvNode(states[k], i);
  }

  lemma LeadsItsReign(s: Cluster, j: int)
    requires Inv(s) && 0 <= j < |s.nodes| && s.nodes[j].status == Leader
    ensures Sized(s.past) && j < |s.past.log| && s.nodes[j].term in s.past.reign && s.past.reign[s.nodes[j].term].log == s.past.log[j]
  {
    hide Inv, Sound, SelfAcks, NodeOk;
    InvNode(s, j);
    LeaderLog(s.past, s.nodes[j], j);
  }

  /** A committed prefix is at the head of the log of every reign from its term on, however early the reign is looked at. */
  lemma CommittedAtHead(h: History, p: Log, t: int, early: History, u: int)
    requires Steady(h) && Committed(h, p, t) && t < u && u in early.reign && Grows(early, h) && Extends(early, u)
    ensures |p| > 0 && Agree(p, early.reign[u].log, |p| - 1)
  {
    hide Steady, Grows;
    var a, c := CommittedWitness(h, p, t);
    ReignKept(early, h, u);
    LeaderCompleteness(h, a, c, u);
    StoodKept(early, h, early.reign[u].leader, u);
    var stood := h.candidacy[(h.reign[u].leader, u)];
    assert |p| <= c + 1;
    forall x | 0 <= x < |p| ensures x < |early.reign[u].log| && p[x] == early.reign[u].log[x] {
      assert p[x] == h.reign[a].log[x] == stood[x];
    }
  }

  lemma StoodKept(h: History, h': History, c: int, t: int)
    requires Grows(h, h') && (c, t) in h.candidacy
    ensures (c, t) in h'.candidacy && h'.candidacy[(c, t)] == h.candidacy[(c, t)]
  {
  }

  lemma SteadyExtends(h: History, t: int)
    requires Steady(h) && t in h.reign && t > 0
    ensures Extends(h, t)
  {
  }

  lemma TermsPositive(h: History, p: Log, t: int)
    requires Sound(h) && Committed(h, p, t)
    ensures t >= 0
  {
    var a, c := CommittedWitness(h, p, t);
    assert GoodReign(h, a);
  }

  /** The prefix of a log up to an index, and agreement with it. */
  lemma AgreePrefix(log: Log, c: int, other: Log)
    requires 0 <= c < |log| && Agree(log[..c + 1], other, c)
    ensures Agree(other, log, c)
  {
    forall x | 0 <= x <= c ensures other[x] == log[x] {
      assert log[..c + 1][x] == log[x];
    }
  }

  /**
    Leader Completeness: in a clean run, whatever a server of term t has marked committed is in the
    log of every leader of a later term, at every moment that leader leads.
  */
  lemma LeaderCompletenessHolds(n: nat, states: seq<Cluster>, steps: seq<Step>, k: int, i: int, m: int, j: int)
    requires IsCleanRun(n, states, steps) && 0 <= k < |states| && 0 <= m < |states|
    requires 0 <= i < n && 0 <= j < n && |states[k].nodes| == |states[m].nodes| == n && i < |states[k].past.log| && j < |states[m].past.log|
    requires states[m].nodes[j].status == Leader && states[k].nodes[i].term < states[m].nodes[j].term
    ensures Agree(states[m].past.log[j], states[k].past.log[i], states[k].nodes[i].commitIndex)
  {
    hide IsCleanRun, IsRun, Inv, Steady, Grows, Committed, Agree;
    CleanRunIsRun(n, states, steps);
    LeaderCommitted(n, states, steps, k, i);
    LeaderCommitted(n, states, steps, m, j);
    LeadsItsReign(states[m], j);
    if k <= m {
      RunGrows(n, states, steps, k, m);
    } else {
      RunGrows(n, states, steps, m, k);
    }
    var p := states[k].past.log[i][..states[k].nodes[i].commitIndex + 1];
    CommittedAnyTime(states[k].past, states[m].past, p, states[k].nodes[i].term, states[m].nodes[j].term);
    AgreePrefix(states[k].past.log[i], states[k].nodes[i].commitIndex, states[m].past.log[j]);
  }

  lemma GrowsSelf(h: History)
    requires Sized(h)
    ensures Grows(h, h)
  {
  }

  lemma CommittedAnyTime(h: History, g: History, p: Log, t: int, u: int)
    requires Steady(h) && Steady(g) && Committed(h, p, t) && t < u && u in g.reign && (Grows(h, g) || Grows(g, h))
    ensures |p| > 0 && Agree(p, g.reign[u].log, |p| - 1)
  {
    hide Steady, Grows, Committed, Extends, Agree;
    SteadySound(h);
    SteadySound(g);
    TermsPositive(h, p, t);
    SteadyExtends(g, u);
    if Grows(h, g) {
      CommittedGrows(h, g, p, t, t);
      GrowsSelf(g);
      CommittedAtHead(g, p, t, g, u);
    } else {
      CommittedAtHead(h, p, t, g, u);
    }
  }

  /** Committed prefixes agree: no two servers, at any two moments of a clean run, mark different entries committed. */
  lemma CommittedEntriesAgree(n: nat, states: seq<Cluster>, steps: seq<Step>, k: int, i: int, m: int, j: int, x: int)
    requires IsCleanRun(n, states, steps) && 0 <= k <= m < |states| && 0 <= i < n && 0 <= j < n
    requires |states[k].nodes| == |states[m].nodes| == n && i < |states[k].past.log| && j < |states[m].past.log|
    requires 0 <= x <= states[k].nodes[i].commitIndex && x <= states[m].nodes[j].commitIndex
    ensures x < |states[k].past.log[i]| && x < |states[m].past.log[j]| && states[k].past.log[i][x] == states[m].past.log[j][x]
  {
    hide IsCleanRun, IsRun, Inv, Steady, Grows, Committed;
    CleanRunIsRun(n, states, steps);
    LeaderCommitted(n, states, steps, k, i);
    LeaderCommitted(n, states, steps, m, j);
    RunGrows(n, states, steps, k, m);
    SteadySound(states[m].past);
    var nd, md := states[k].nodes[i], states[m].nodes[j];
    var p, q := states[k].past.log[i][..nd.commitIndex + 1], states[m].past.log[j][..md.commitIndex + 1];
    CommittedGrows(states[k].past, states[m].past, p, nd.term, nd.term);
    CommittedAgree(states[m].past, p, q, nd.term, md.term, x);
  }

  lemma SentTraffic(s: Cluster, v: int, a: int)
    requires CleanInv(s) && 0 <= v < |s.stream| && 0 <= a < |s.stream[v]|
    ensures SentCommitted(s.past, s.stream[v][a]) && Steady(s.past) && Sound(s.past)
  {
    hide Inv, CommitsOk, SentCommitted;
  }

  lemma SentAgree(h: History, a: ApplyMsg, b: ApplyMsg)
    requires Steady(h) && SentCommitted(h, a) && SentCommitted(h, b) && a.Command? && b.Command? && a.index == b.index
    ensures a == b
  {
    hide Steady, Committed;
    var p: Log, t: int :| Committed(h, p, t) && 0 <= a.index < |p| && p[a.index].command == a.command;
    var q: Log, u: int :| Committed(h, q, u) && 0 <= b.index < |q| && q[b.index].command == b.command;
    CommittedAgree(h, p, q, t, u, a.index);
  }

  /**
    State Machine Safety: in a clean run no two servers ever send up different commands for one
    `CommandIndex`, whenever each of them does it.
  */
  lemma StateMachineSafety(n: nat, states: seq<Cluster>, steps: seq<Step>, k: int, v: int, a: int, m: int, w: int, b: int)
    requires IsCleanRun(n, states, steps) && 0 <= k < |states| && 0 <= m < |states|
    requires 0 <= v < |states[k].stream| && 0 <= a < |states[k].stream[v]| && states[k].stream[v][a].Command?
    requires 0 <= w < |states[m].stream| && 0 <= b < |states[m].stream[w]| && states[m].stream[w][b].Command?
    requires states[k].stream[v][a].index == states[m].stream[w][b].index
    ensures states[k].stream[v][a] == states[m].stream[w][b]
    decreases k > m
  {
    hide IsCleanRun, CleanInv, Steady, Grows, SentCommitted, Sound;
    if k > m {
      StateMachineSafety(n, states, steps, m, w, b, k, v, a);
    } else {
      CleanRunIsRun(n, states, steps);
      CleanRunKeeps(n, states, steps, k);
      CleanRunKeeps(n, states, steps, m);
      RunGrows(n, states, steps, k, m);
      SentTraffic(states[k], v, a);
      SentTraffic(states[m], w, b);
      SentStays(states[k].past, states[m].past, states[k].stream[v][a]);
      SentAgree(states[m].past, states[k].stream[v][a], states[m].stream[w][b]);
    }
  }

  // ----- the exact line --------------------------------------------------------------------

  /** A log that kept its tail over a changed entry is no longer matched. */
  lemma StaleTailUnmatched(h: History, h': History, log: Log, log': Log, x: int, y: int)
    requires Matched(h, log) && h'.reign == h.reign && Matched(h', log')
    requires 0 <= x <= y < |log| <= |log'| && log'[y] == log[y]
    ensures log'[x] == log[x]
  {
    var t := log[y].term;
    assert Agree(log, h.reign[t].log, y) && Agree(log', h'.reign[t].log, y);
  }

  lemma MergedPoint(log: Log, args: AppendArgs, i: int)
    requires 0 <= args.prevIndex < |log| && 0 <= i < |log|
    ensures var log' := Merged(log, args.prevIndex, args.entries);
      && |log'| >= |log|
      && log'[i] == if args.prevIndex < i <= args.prevIndex + |args.entries| then args.entries[i - args.prevIndex - 1] else log[i]
  {
  }

  lemma DisturbedUnmatched(h: History, h': History, log: Log, log': Log, args: AppendArgs)
    requires Matched(h, log) && h'.reign == h.reign && 0 <= args.prevIndex < |log| && log' == Merged(log, args.prevIndex, args.entries)
    requires Disturbs(log, args) && args.prevIndex + |args.entries| < |log| - 1
    ensures !Matched(h', log')
  {
    hide Merged, Matched;
    if Matched(h', log') {
      var k :| 0 <= k < |args.entries| && args.prevIndex + 1 + k < |log| && log[args.prevIndex + 1 + k].term != args.entries[k].term;
      MergedPoint(log, args, args.prevIndex + 1 + k);
      MergedPoint(log, args, |log| - 1);
      StaleTailUnmatched(h, h', log, log', args.prevIndex + 1 + k, |log| - 1);
      assert false;
    }
  }

  /** An overwriting batch that leaves a tail behind it unmatches the log. */
  lemma UncleanAppend(h: History, nd: Node, call: AppendCall)
    requires Steady(h) && Passes(h, nd, call) && !CleanAppend(nd, call.args)
    ensures Sized(h) && 0 <= call.to < |h.log| && !Matched(Accepted(h, call), AcceptedLog(h, call))
  {
    hide Steady, Passes, Matched, Merged, Sourced, Stretch, Good, NoClash, Consecutive, Overwrites, Disturbs, Represents, LastIndex;
    var v, args := call.to, call.args;
    PassesSized(h, nd, call);
    PassesLogs(h, nd, call);
    PassesRepresents(h, nd, call);
    AcceptedGood(h, nd, call);
    OverwritesIs(nd, h.log[v], args);
    SteadyLog(h, v);
    DisturbedUnmatched(h, Accepted(h, call), h.log[v], AcceptedLog(h, call), args);
  }

  lemma MergesIsSuccess(h: History, nd: Node, call: AppendCall)
    requires Sound(h) && Sized(h) && 0 <= call.to < |h.log| && NodeOk(h, nd, call.to) && FromReign(h, call) && Merges(nd, call.args)
    ensures AppendEntries(nd, call.args).1.success
  {
    hide Sound, FromReign, AppendEntries, Grows, OnlyTouches, VoteKnown, Leads, IndexSpace, Shaped;
    var met := Meet(nd, call.args.term).(status := Follower);
    var r := Raise(h, call.to, met.term);
    AppendMet(h, nd, call);
    AppendMeets(nd, call.args);
    KnownTerm(nd, h.log[call.to], call.args.prevIndex);
    AcceptOk(r, met, call);
  }

  lemma KnownTerm(nd: Node, log: Log, i: int)
    requires Represents(nd, log) && KnowsTerm(nd, i)
    ensures 0 <= nd.snapIndex <= i < |log| && TermAt(nd, i) == log[i].term
  {
  }

  lemma UncleanMerges(nd: Node, args: AppendArgs)
    requires !CleanAppend(nd, args)
    ensures Merges(nd, args) && args.term >= nd.term
    ensures !CleanAppend(Meet(nd, args.term).(status := Follower), args)
  {
    var met := Meet(nd, args.term).(status := Follower);
    assert Merges(met, args);
    assert forall i :: HasSlot(met, i) == HasSlot(nd, i);
    var k :| 0 <= k < |args.entries| && HasSlot(nd, args.entries[k].index) && TermAt(nd, args.entries[k].index) != args.entries[k].term;
    assert HasSlot(met, args.entries[k].index) && TermAt(met, args.entries[k].index) != args.entries[k].term;
  }

  /**
    The exact line for AppendEntries: from a state a clean run can reach, delivering one keeps the
    receiver's log matched if and only if it overwrites nothing or reaches the end of the log.
  */
  lemma AppendMatchedIffClean(s: Cluster, call: AppendCall)
    requires CleanInv(s) && Enabled(s, DeliverAppend(call)) && HasPast(s, call.to)
    ensures var s' := DoDeliverAppend(s, call);
      && call.to < |s'.past.log|
      && (Matched(s'.past, s'.past.log[call.to]) <==> CleanAppend(s.nodes[call.to], call.args))
  {
    hide CleanInv, Inv, Grows, Steady, TrafficCommitted, CommitsOk, CommitOk, Sound, SelfAcks, NodeOk, AppendEntries, AppendCallOk, FromReign,
      CleanAppend, Passes, Matched, CleanlyMoved, Accepted, AcceptedLog, Appended, OnlyTouches, Merges, Accept, Merged;
    var nd, v, args, s' := s.nodes[call.to], call.to, call.args, DoDeliverAppend(s, call);
    CleanFacts(s);
    InvNode(s, v);
    InvAppendCall(s, call);
    CallFromReign(s.past, s.rounds, call);
    DeliverAppendInv(s, call);
    GrowsSized(s.past, s'.past);
    if CleanAppend(nd, args) {
      AppendsClean(s, call);
      MovedSteady(s, s', v);
      SteadySound(s'.past);
      SteadyLog(s'.past, v);
    } else {
      UncleanMerges(nd, args);
      MergesIsSuccess(s.past, nd, call);
      SuccessPasses(s.past, nd, call);
      var met := Meet(nd, args.term).(status := Follower);
      var r := Raise(s.past, v, met.term);
      RaisesSteady(s.past, v, nd, met.term);
      UncleanAppend(r, met, call);
      PassesSized(r, met, call);
      PassesCommit(r, met, call);
      AppendedTerms(met, AcceptedLog(r, call), args);
      AcceptedIs(s.past, r, met, call);
      AcceptedPastLog(r, call);
      assert s'.past == Accepted(r, call);
    }
  }

  lemma RaisesSteady(h: History, v: int, nd: Node, t: int)
    requires Steady(h) && Sized(h) && 0 <= v < |h.log| && nd.term == h.term[v] <= t
    ensures Steady(Raise(h, v, t))
  {
    hide Steady;
    RaftSteady.RaiseSteady(h, v, t);
  }

  lemma AcceptedPastLog(h: History, call: AppendCall)
    requires Sized(h) && 0 <= call.to < |h.log| && 0 <= call.args.prevIndex < |h.log[call.to]|
    ensures Accepted(h, call).log[call.to] == AcceptedLog(h, call)
  {
  }

  lemma UncleanInstall(h: History, nodes: seq<Node>, nd: Node, call: SnapCall)
    requires Steady(h) && Sized(h) && Installs(h, nodes, nd, call) && !CleanInstall(nd, call.args)
    ensures 0 <= call.task.to < |h.log|
    ensures var log := Covered(h.log[call.task.to], call.covered);
      !Matched(Install(h, call.task.to, log), log)
  {
    hide Steady, Installs, Matched, Covered, Represents, HasSlot, LastIndex, KnowsTerm, TermAt, Shaped;
    InstallsFacts(h, nodes, nd, call);
    InstallsMore(h, nodes, nd, call);
    var v, log, x := call.task.to, h.log[call.task.to], call.args.lastIndex;
    LastOfLog(nd, log);
    SlotTerm(nd, log, x);
    SteadyLog(h, v);
    CoveredAt(log, call.covered);
    var log' := Covered(log, call.covered);
    if Matched(Install(h, v, log'), log') {
      StaleTailUnmatched(h, Install(h, v, log'), log, log', x, |log| - 1);
      assert false;
    }
  }

  lemma UncleanInstalls(nd: Node, args: SnapArgs)
    requires !CleanInstall(nd, args)
    ensures args.term >= nd.term && nd.snapIndex < args.lastIndex
    ensures InstallSnapshot(nd, args).2 != []
    ensures !CleanInstall(Meet(nd, args.term).(status := Follower), args)
  {
  }

  /**
    The exact line for InstallSnapshot: from a state a clean run can reach, delivering one keeps the
    receiver's log matched if and only if it keeps no suffix, or finds the snapshot's term at the
    snapshot's index.
  */
  lemma InstallMatchedIffClean(s: Cluster, call: SnapCall)
    requires CleanInv(s) && Enabled(s, DeliverSnapshot(call)) && HasPast(s, call.task.to)
    ensures var s' := DoDeliverSnapshot(s, call);
      && call.task.to < |s'.past.log|
      && (Matched(s'.past, s'.past.log[call.task.to]) <==> CleanInstall(s.nodes[call.task.to], call.args))
  {
    hide CleanInv, Inv, Grows, CleanlyMoved, Steady, CommitsOk, TrafficCommitted, Sound, SelfAcks, NodeOk, CommitOk, InstallSnapshot, Covered,
      SnapCallOk, CleanInstall, OnlyTouches, Matched, Installs;
    var i, nd, s' := call.task.to, s.nodes[call.task.to], DoDeliverSnapshot(s, call);
    CleanFacts(s);
    InvNode(s, i);
    InvSnapCall(s, call);
    DeliverSnapshotInv(s, call);
    GrowsSized(s.past, s'.past);
    if CleanInstall(nd, call.args) {
      SnapshotsClean(s, call);
      MovedSteady(s, s', i);
      SteadySound(s'.past);
      SteadyLog(s'.past, i);
    } else {
      UncleanInstalls(nd, call.args);
      var met := Meet(nd, call.args.term).(status := Follower);
      var r := Raise(s.past, i, met.term);
      SnapshotMet(s.past, nd, i, call.args.term);
      RaisesSteady(s.past, i, nd, met.term);
      SnapCallStays(s.past, r, s.nodes, s.nodes, call);
      InstallsHolds(r, s.nodes, met, call);
      UncleanInstall(r, s.nodes, met, call);
      SnapshotMeets(nd, call.args);
      InstallsFacts(r, s.nodes, met, call);
      InstallsIs(met, r.log[i], call);
      InstalledTerm(met, Covered(r.log[i], call.covered), call.args);
      assert s'.past == Install(r, i, Covered(r.log[i], call.covered));
    }
  }

  lemma InstallsHolds(h: History, nodes: seq<Node>, nd: Node, call: SnapCall)
    requires Sound(h) && SnapCallOk(h, nodes, call) && Sized(h) && 0 <= call.task.to < |h.log| && NodeOk(h, nd, call.task.to)
    requires nd.status == Follower && nd.term == call.args.term && nd.snapIndex < call.args.lastIndex
    ensures Installs(h, nodes, nd, call)
  {
  }

  lemma InstalledTerm(nd: Node, log: Log, args: SnapArgs)
    requires 0 <= args.lastIndex < |log|
    ensures Installed(nd, log, args).term == nd.term
  {
  }
}
