/**
  The steps that change a log in a clean run, the exact line between clean and not, and the
  invariant over whole clean runs.
*/
module RaftCleanMerge {
  import opened RaftLog
  import opened RaftHistory
  import opened RaftConsensus
  import opened RaftSteady
  import opened RaftNode
  import opened RaftCluster
  import opened RaftInvariant
  import opened RaftElectionSteps
  import opened RaftReplicationSteps
  import opened RaftSnapshotSteps
  import opened RaftSafety
  import opened RaftCommit
  import opened RaftClean

  // ----- Propose ---------------------------------------------------------------------------

  lemma CommitExtended(h: History, h': History, nd: Node, nd': Node, v: int)
    requires Sound(h') && Grows(h, h') && Sized(h) && Sized(h') && 0 <= v < |h.log| == |h'.log|
    requires CommitOk(h, nd, v) && |h'.log[v]| >= |h.log[v]| && (forall j | 0 <= j < |h.log[v]| :: h'.log[v][j] == h.log[v][j])
    requires nd'.commitIndex == nd.commitIndex && nd'.term >= nd.term
    ensures CommitOk(h', nd', v)
  {
    hide Sound, Grows, Committed;
    CommittedGrows(h, h', h.log[v][..nd.commitIndex + 1], nd.term, nd'.term);
    assert h'.log[v][..nd.commitIndex + 1] == h.log[v][..nd.commitIndex + 1];
  }

  lemma LeaderProposesSteady(h: History, nd: Node, i: int, command: string)
    requires Steady(h) && Sound(h) && Sized(h) && 0 <= i < |h.log| && NodeOk(h, nd, i) && nd.status == Leader
    ensures h.term[i] in h.reign
    ensures Steady(RaftHistory.Propose(h, i, command))
  {
    assert Leads(h, i) && h.term[i] > 0 && h.term[i] in h.reign;
    hide Steady, Sound, NodeOk, Proposed;
    ProposeIs(h, i, command);
    ProposedSteady(h, RaftHistory.Propose(h, i, command), i);
  }

  lemma ProposesClean(s: Cluster, i: int, command: string)
    requires CleanInv(s) && Up(s, i) && HasPast(s, i)
    ensures CleanlyMoved(s, DoPropose(s, i, command), i)
  {
    hide CleanInv, Inv, Grows, Steady, TrafficCommitted, Sound, SelfAcks, NodeOk, CommitOk;
    CleanFacts(s);
    InvNode(s, i);
    NodeCommits(s, i);
    ProposeInv(s, i, command);
    var s' := DoPropose(s, i, command);
    InvSized(s');
    if s.nodes[i].status == Leader {
      LeaderProposesSteady(s.past, s.nodes[i], i, command);
    }
    CommitExtended(s.past, s'.past, s.nodes[i], s'.nodes[i], i);
  }

  // ----- TakeAppend ------------------------------------------------------------------------

  lemma CountAppendKeeps(nd: Node, n: nat, j: int, args: AppendArgs, reply: AppendReply, num: int)
    requires HasPeer(nd, j)
    ensures var nd' := CountAppend(nd, n, j, args, reply, num).0;
      nd'.commitIndex >= nd.commitIndex && nd'.term >= nd.term
  {
  }

  lemma ChosenCommit(h: History, log: Log, t: int, c: int)
    requires Chosen(h, t, c) && h.reign[t].log == log
    ensures 0 <= c < |log| && Committed(h, log[..c + 1], t)
  {
    assert PrefixOfChosen(h, log[..c + 1], t, c);
  }

  lemma TakesClean(s: Cluster, a: AppendAnswer)
    requires CleanInv(s) && Enabled(s, TakeAppend(a)) && HasPast(s, a.call.args.leader)
    ensures CleanlyMoved(s, DoTakeAppend(s, a), a.call.args.leader)
  {
    hide CleanInv, Inv, Grows, Steady, TrafficCommitted, Sound, SelfAcks, NodeOk, CommitOk, CountAppend, Chosen;
    var i := a.call.args.leader;
    var nd, s' := s.nodes[i], DoTakeAppend(s, a);
    CleanFacts(s);
    InvNode(s, i);
    NodeCommits(s, i);
    TakeAppendInv(s, a);
    InvSized(s');
    CountAppendKeeps(nd, |s.nodes|, a.call.to, a.call.args, a.reply, s.rounds[a.call.round].tally.num);
    RaiseSteady(s.past, i, s'.nodes[i].term);
    if s'.nodes[i].commitIndex > nd.commitIndex {
      CommitIsChosen(s, a);
      ChosenCommit(s.past, s.past.log[i], s'.nodes[i].term, s'.nodes[i].commitIndex);
      CommitIs(s'.past, s'.nodes[i], i);
    } else {
      CommitStays(s.past, s'.past, nd, s'.nodes[i], i);
    }
  }

  lemma CommitIs(h: History, nd: Node, v: int)
    requires Sized(h) && 0 <= v < |h.log| && 0 <= nd.commitIndex < |h.log[v]|
    requires Committed(h, h.log[v][..nd.commitIndex + 1], nd.term)
    ensures CommitOk(h, nd, v)
  {
  }

  // ----- DeliverAppend ---------------------------------------------------------------------

  /** The batch differs in term from some entry the log already has. */
  ghost predicate Disturbs(log: Log, args: AppendArgs)
    requires 0 <= args.prevIndex
  {
    exists k | 0 <= k < |args.entries| && args.prevIndex + 1 + k < |log| :: log[args.prevIndex + 1 + k].term != args.entries[k].term
  }

  lemma SlotTerm(nd: Node, log: Log, i: int)
    requires Represents(nd, log) && nd.snapIndex < i
    ensures HasSlot(nd, i) <==> i < |log|
    ensures i < |log| ==> KnowsTerm(nd, i) && TermAt(nd, i) == log[i].term
  {
  }

  lemma OverwritesIs(nd: Node, log: Log, args: AppendArgs)
    requires Represents(nd, log) && 0 <= nd.snapIndex <= args.prevIndex < |log| && args.term >= nd.term
    requires log[args.prevIndex].term == args.prevTerm && Consecutive(args.prevIndex, args.entries)
    ensures Overwrites(nd, args) <==> Disturbs(log, args)
  {
    hide HasSlot, KnowsTerm, TermAt, Represents;
    TermOf(nd, log, args.prevIndex);
    forall k | 0 <= k < |args.entries|
      ensures HasSlot(nd, args.entries[k].index) <==> args.prevIndex + 1 + k < |log|
      ensures args.prevIndex + 1 + k < |log| ==>
        KnowsTerm(nd, args.entries[k].index) && TermAt(nd, args.entries[k].index) == log[args.prevIndex + 1 + k].term
    {
      SlotTerm(nd, log, args.prevIndex + 1 + k);
    }
  }

  /** A batch that disturbs nothing and ends inside the log changes nothing. */
  lemma MergedNothing(log: Log, args: AppendArgs)
    requires 0 <= args.prevIndex && args.prevIndex + |args.entries| < |log|
    requires NoClash(log, args.prevIndex, args.entries) && !Disturbs(log, args)
    ensures Merged(log, args.prevIndex, args.entries) == log
  {
    forall i | 0 <= i < |log| ensures Merged(log, args.prevIndex, args.entries)[i] == log[i] {
      if args.prevIndex < i <= args.prevIndex + |args.entries| {
        var k := i - args.prevIndex - 1;
        assert log[args.prevIndex + 1 + k].term == args.entries[k].term;
      }
    }
  }

  lemma MergedFollows(log: Log, lead: Log, args: AppendArgs, end: int)
    requires 0 <= args.prevIndex && Agree(log, lead, args.prevIndex) && Stretch(lead, args, end)
    ensures Agree(Merged(log, args.prevIndex, args.entries), lead, end)
  {
    MergedAt(log, args.prevIndex, args.entries);
    hide Merged;
    var log' := Merged(log, args.prevIndex, args.entries);
    forall j | 0 <= j <= end ensures log'[j] == lead[j] {
      if j > args.prevIndex {
        assert log'[j] == args.entries[j - args.prevIndex - 1];
      }
    }
  }

  lemma SteadyLogs(h: History, v: int, t: int)
    requires Steady(h) && Sized(h) && 0 <= v < |h.log| && t in h.reign
    ensures Matched(h, h.log[v]) && Matched(h, h.reign[t].log)
  {
  }

  /** A batch that passes the checks makes the log agree with the leader's to the batch's end. */
  lemma PassedAgrees(h: History, nd: Node, call: AppendCall)
    requires Steady(h) && Passes(h, nd, call)
    ensures 0 <= call.to < |h.log| && 0 <= call.args.prevIndex < |h.log[call.to]| && call.args.term in h.reign
    ensures Agree(AcceptedLog(h, call), h.reign[call.args.term].log, call.args.prevIndex + |call.args.entries|)
  {
    hide Steady, Passes, Matched, Merged, Sourced, Stretch, Agree;
    var v, args := call.to, call.args;
    PassesSized(h, nd, call);
    PassesLogs(h, nd, call);
    SteadyLogs(h, v, args.term);
    StretchFollows(h, h.log[v], h.reign[args.term].log, args, args.prevIndex + |args.entries|);
  }

  lemma StretchFollows(h: History, log: Log, lead: Log, args: AppendArgs, end: int)
    requires Matched(h, log) && Matched(h, lead) && Stretch(lead, args, end)
    requires 0 <= args.prevIndex < |log| && log[args.prevIndex].term == args.prevTerm
    ensures Agree(Merged(log, args.prevIndex, args.entries), lead, end)
  {
    hide Matched, Merged, Stretch, Agree;
    StretchPrev(lead, args, end);
    LogMatching(h, log, lead, args.prevIndex);
    MergedFollows(log, lead, args, end);
  }

  /** What a clean batch leaves of a log: nothing behind its end, or the log as it was. */
  lemma CleanLeaves(nd: Node, log: Log, args: AppendArgs)
    requires Represents(nd, log) && 0 <= nd.snapIndex <= args.prevIndex < |log| && args.term == nd.term
    requires log[args.prevIndex].term == args.prevTerm && LastIndex(nd) == |log| - 1
    requires Consecutive(args.prevIndex, args.entries) && NoClash(log, args.prevIndex, args.entries)
    requires CleanAppend(nd, args)
    ensures var log', end := Merged(log, args.prevIndex, args.entries), args.prevIndex + |args.entries|;
      log' == log || (|log'| == end + 1 && |log'| >= |log|)
  {
    hide Represents, LastIndex, Consecutive, NoClash, Merged, Disturbs, Overwrites;
    OverwritesIs(nd, log, args);
    MergedAt(log, args.prevIndex, args.entries);
    if args.prevIndex + |args.entries| < |log| - 1 {
      MergedNothing(log, args);
    }
  }

  /** A clean batch that passes the checks makes the log the leader's, or leaves a longer log as it is. */
  lemma CleanFollows(h: History, nd: Node, call: AppendCall)
    requires Steady(h) && Passes(h, nd, call) && CleanAppend(nd, call.args)
    ensures Sized(h) && FollowsLeader(h, call.to, AcceptedLog(h, call), call.args.prevIndex + |call.args.entries|)
  {
    hide Steady, Passes, Merged, Sourced, Stretch, Agree, Good, NoClash, Consecutive, Represents, LastIndex, CleanAppend;
    PassesSized(h, nd, call);
    PassesLogs(h, nd, call);
    PassesRepresents(h, nd, call);
    AcceptedGood(h, nd, call);
    PassedAgrees(h, nd, call);
    CleanLeaves(nd, h.log[call.to], call.args);
  }

  lemma StretchPrev(log: Log, args: AppendArgs, end: int)
    requires Stretch(log, args, end)
    ensures 0 <= args.prevIndex < |log| && log[args.prevIndex].term == args.prevTerm
  {
  }

  lemma PassesRepresents(h: History, nd: Node, call: AppendCall)
    requires Passes(h, nd, call)
    ensures Sized(h) && Represents(nd, h.log[call.to]) && LastIndex(nd) == |h.log[call.to]| - 1
    ensures nd.commitIndex < |h.log[call.to]|
  {
    LastOfLog(nd, h.log[call.to]);
  }

  /** The commit index a clean batch leaves is inside a committed prefix. */
  lemma BatchCommits(h: History, nd: Node, call: AppendCall)
    requires Steady(h) && Sized(h) && Passes(h, nd, call) && CommitOk(h, nd, call.to) && CallCommits(h, call)
    requires FollowsLeader(h, call.to, AcceptedLog(h, call), call.args.prevIndex + |call.args.entries|)
    requires 0 <= nd.snapIndex < |AcceptedLog(h, call)|
    ensures var nd', log := Appended(nd, AcceptedLog(h, call), call.args), AcceptedLog(h, call);
      0 <= nd'.commitIndex < |log| && Committed(h, log[..nd'.commitIndex + 1], nd.term)
  {
    hide Steady, Passes, Merged, Committed, FromReign;
    PassesSized(h, nd, call);
    PassesCallBound(h, nd, call);
    var args, t := call.args, nd.term;
    var log, log', lead, end := h.log[call.to], AcceptedLog(h, call), h.reign[t].log, args.prevIndex + |args.entries|;
    MergedAt(log, args.prevIndex, args.entries);
    if args.leaderCommit > nd.commitIndex {
      LeaderCommits(h, log', lead, end, args.leaderCommit, Min(args.leaderCommit, |log'| - 1), t);
    } else {
      CommittedInReign(h, log[..nd.commitIndex + 1], t);
      OldCommits(log, log', lead, end, nd.commitIndex);
    }
  }

  lemma PassesCallBound(h: History, nd: Node, call: AppendCall)
    requires Passes(h, nd, call)
    ensures call.args.leaderCommit <= call.args.prevIndex + |call.args.entries|
  {
  }

  lemma LeaderCommits(h: History, log: Log, lead: Log, end: int, commit: int, c: int, t: int)
    requires Agree(log, lead, end) && 0 <= c <= commit <= end && Committed(h, lead[..commit + 1], t)
    ensures Committed(h, log[..c + 1], t)
  {
    hide Committed;
    CommittedShorter(h, lead[..commit + 1], log[..c + 1], t);
  }

  lemma OldCommits(log: Log, log': Log, lead: Log, end: int, c: int)
    requires Agree(log', lead, end) && 0 <= c < |log| <= |log'| && Agree(log[..c + 1], lead, c)
    requires forall j | end < j < |log| :: log'[j] == log[j]
    ensures log'[..c + 1] == log[..c + 1]
  {
    forall j | 0 <= j <= c ensures log'[j] == log[j] {
      assert log[..c + 1][j] == lead[j];
    }
  }

  lemma CleanAppendMet(nd: Node, met: Node, args: AppendArgs)
    requires met == Meet(nd, args.term).(status := Follower) && args.term >= nd.term && CleanAppend(nd, args)
    ensures CleanAppend(met, args)
  {
  }

  lemma AcceptedCommit(h: History, h': History, nd: Node, call: AppendCall)
    requires Passes(h, nd, call) && Sized(h) && h' == Accepted(h, call) && Sound(h') && Grows(h, h') && Sized(h')
    requires 0 <= nd.snapIndex < |AcceptedLog(h, call)|
    requires var nd', log := Appended(nd, AcceptedLog(h, call), call.args), AcceptedLog(h, call);
      0 <= nd'.commitIndex < |log| && Committed(h, log[..nd'.commitIndex + 1], nd.term)
    ensures call.to < |h'.log| && CommitOk(h', Appended(nd, AcceptedLog(h, call), call.args), call.to)
  {
    hide Sound, Grows, Committed, AcceptedLog, FromReign, NodeOk;
    var nd', log := Appended(nd, AcceptedLog(h, call), call.args), AcceptedLog(h, call);
    CommittedGrows(h, h', log[..nd'.commitIndex + 1], nd.term, nd.term);
  }

  /** A clean batch that is accepted keeps everything a clean run keeps. */
  lemma AcceptsClean(h: History, nd: Node, call: AppendCall)
    requires Steady(h) && Sized(h) && Passes(h, nd, call) && CleanAppend(nd, call.args) && CommitOk(h, nd, call.to) && CallCommits(h, call)
    ensures 0 <= nd.snapIndex < |AcceptedLog(h, call)| && Sized(Accepted(h, call)) && 0 <= call.to < |Accepted(h, call).log|
    ensures Steady(Accepted(h, call))
    ensures CommitOk(Accepted(h, call), Appended(nd, AcceptedLog(h, call), call.args), call.to)
  {
    hide Steady, Passes, Sound, Grows, OnlyTouches, NodeOk, AcceptedLog, CommitOk, CallCommits, FollowsLeader, Good, Consecutive, NoClash, CleanAppend;
    PassesSized(h, nd, call);
    AcceptedGood(h, nd, call);
    AcceptedPast(h, nd, call);
    PassesCommit(h, nd, call);
    CleanFollows(h, nd, call);
    AcceptSteady(h, call.to, AcceptedLog(h, call), call.args.prevIndex + |call.args.entries|);
    BatchCommits(h, nd, call);
    AcceptedCommit(h, Accepted(h, call), nd, call);
  }

  lemma TrafficCalls(s: Cluster, call: AppendCall)
    requires TrafficCommitted(s) && call in s.appendCalls
    ensures CallCommits(s.past, call)
  {
  }

  lemma RaisedCommit(h: History, r: History, nd: Node, met: Node, v: int)
    requires Sound(r) && Grows(h, r) && Sized(h) && Sized(r) && 0 <= v < |h.log| && r.log == h.log
    requires CommitOk(h, nd, v) && met.commitIndex == nd.commitIndex && met.term >= nd.term
    ensures CommitOk(r, met, v)
  {
    CommitStays(h, r, nd, met, v);
  }

  lemma AppendsClean(s: Cluster, call: AppendCall)
    requires CleanInv(s) && Enabled(s, DeliverAppend(call)) && HasPast(s, call.to) && CleanAppend(s.nodes[call.to], call.args)
    ensures CleanlyMoved(s, DoDeliverAppend(s, call), call.to)
  {
    hide CleanInv, Inv, Grows, Steady, TrafficCommitted, CommitsOk, Sound, SelfAcks, NodeOk, CommitOk, AppendEntries, AppendCallOk, FromReign,
      CallCommits, CleanAppend, Passes, AcceptedLog, Accepted, Appended, OnlyTouches, CleanlyMoved;
    var nd, v, args := s.nodes[call.to], call.to, call.args;
    CleanFacts(s);
    InvNode(s, v);
    NodeCommits(s, v);
    InvAppendCall(s, call);
    CallFromReign(s.past, s.rounds, call);
    TrafficCalls(s, call);
    if AppendEntries(nd, args).1.success {
      SuccessPasses(s.past, nd, call);
      var met := Meet(nd, args.term).(status := Follower);
      var r := Raise(s.past, v, met.term);
      AppendMet(s.past, nd, call);
      RaiseSteady(s.past, v, met.term);
      SoundSized(r);
      RaisedCommit(s.past, r, nd, met, v);
      CallStays(s.past, r, call);
      CleanAppendMet(nd, met, args);
      AcceptsClean(r, met, call);
      PassesSized(r, met, call);
      AppendedTerms(met, AcceptedLog(r, call), args);
      AcceptedIs(s.past, r, met, call);
      AcceptedMoved(s, call, Appended(met, AcceptedLog(r, call), args), Accepted(r, call));
    } else {
      RefusedMoved(s, call);
    }
  }

  lemma AcceptedMoved(s: Cluster, call: AppendCall, nd': Node, h': History)
    requires call in s.appendCalls && Up(s, call.to) && HasPast(s, call.to) && 0 <= call.args.prevIndex < |s.past.log[call.to]|
    requires AppendEntries(s.nodes[call.to], call.args) == (nd', AppendReply(nd'.term, true, 0))
    requires h' == Accept(Raise(s.past, call.to, nd'.term), call.to,
      Merged(s.past.log[call.to], call.args.prevIndex, call.args.entries), call.args.prevIndex + |call.args.entries|)
    requires Steady(h') && Sized(h') && call.to < |h'.log| && CommitOk(h', nd', call.to)
    ensures CleanlyMoved(s, DoDeliverAppend(s, call), call.to)
  {
    hide Steady, AppendEntries, CommitOk, Merged, Accept;
  }

  lemma AcceptedIs(h: History, r: History, met: Node, call: AppendCall)
    requires Sized(h) && Sized(r) && 0 <= call.to < |h.log| && r == Raise(h, call.to, met.term) && 0 <= call.args.prevIndex < |h.log[call.to]|
    ensures Accepted(r, call) == Accept(Raise(h, call.to, met.term), call.to,
      Merged(h.log[call.to], call.args.prevIndex, call.args.entries), call.args.prevIndex + |call.args.entries|)
  {
  }

  lemma AppendedTerms(nd: Node, log: Log, args: AppendArgs)
    requires 0 <= nd.snapIndex < |log|
    ensures Appended(nd, log, args).term == nd.term
  {
  }

  lemma RefusedMoved(s: Cluster, call: AppendCall)
    requires CleanInv(s) && Enabled(s, DeliverAppend(call)) && HasPast(s, call.to)
    requires !AppendEntries(s.nodes[call.to], call.args).1.success
    ensures CleanlyMoved(s, DoDeliverAppend(s, call), call.to)
  {
    hide CleanInv, Inv, Grows, CleanlyMoved, Steady, CommitsOk, TrafficCommitted, Sound, SelfAcks, NodeOk, AppendEntries, AppendCallOk, FromReign;
    var nd := s.nodes[call.to];
    CleanFacts(s);
    InvNode(s, call.to);
    InvAppendCall(s, call);
    CallFromReign(s.past, s.rounds, call);
    FailureKeeps(s.past, nd, call);
    AppendTermsRise(nd, call.args);
    DeliverAppendInv(s, call);
    RaiseSteady(s.past, call.to, AppendEntries(nd, call.args).0.term);
    TermMoved(s, DoDeliverAppend(s, call), call.to);
  }

  lemma AppendTermsRise(nd: Node, args: AppendArgs)
    ensures AppendEntries(nd, args).0.term >= nd.term
  {
    hide MergeEntries, BackOff;
  }

  // ----- DeliverSnapshot -------------------------------------------------------------------

  lemma CoveredWhole(log: Log, covered: Log)
    requires |covered| >= |log|
    ensures Covered(log, covered) == covered
  {
  }

  lemma CoveredNothing(log: Log, covered: Log)
    requires 0 < |covered| < |log| && Agree(log, covered, |covered| - 1)
    ensures Covered(log, covered) == log
  {
  }

  lemma InstallNothing(h: History, v: int)
    requires Sized(h) && 0 <= v < |h.log|
    ensures Install(h, v, h.log[v]) == h
  {
    assert h.log[v := h.log[v]] == h.log;
  }

  /** The snapshot's last entry has the term the log has there. */
  lemma CleanInstallTerm(nd: Node, log: Log, call: SnapCall)
    requires Represents(nd, log) && CleanInstall(nd, call.args) && call.args.term >= nd.term
    requires nd.snapIndex < call.args.lastIndex < |log| - 1
    ensures log[call.args.lastIndex].term == call.args.lastTerm
  {
    hide HasSlot, KnowsTerm, TermAt, LastIndex, Represents;
    LastOfLog(nd, log);
    SlotTerm(nd, log, call.args.lastIndex);
  }

  lemma InstallsMore(h: History, nodes: seq<Node>, nd: Node, call: SnapCall)
    requires Installs(h, nodes, nd, call)
    ensures |call.covered| > 0 && LastTermOf(call.covered) == call.args.lastTerm && Shaped(call.covered)
    ensures 0 <= call.task.to < |h.log| && nd.commitIndex < |h.log[call.task.to]|
  {
    LastOfLog(nd, h.log[call.task.to]);
  }

  /** In a clean run the log after an install is the covered prefix, or the log as it was. */
  lemma CleanCovered(h: History, nodes: seq<Node>, nd: Node, call: SnapCall)
    requires Steady(h) && Sized(h) && Installs(h, nodes, nd, call) && CleanInstall(nd, call.args) && SnapCommits(h, call)
    ensures 0 <= call.task.to < |h.log| && call.args.lastIndex + 1 == |call.covered|
    ensures var log := h.log[call.task.to];
      if |call.covered| >= |log| then Covered(log, call.covered) == call.covered
      else Covered(log, call.covered) == log && Agree(log, call.covered, call.args.lastIndex)
  {
    hide Steady, Installs, Matched, Committed, Covered, Represents, CleanInstall, Agree, Shaped;
    InstallsFacts(h, nodes, nd, call);
    InstallsMore(h, nodes, nd, call);
    var log := h.log[call.task.to];
    if |call.covered| >= |log| {
      CoveredWhole(log, call.covered);
    } else {
      CleanInstallTerm(nd, log, call);
      CommittedMatched(h, call.covered, call.args.term);
      SteadyLog(h, call.task.to);
      LogMatching(h, log, call.covered, call.args.lastIndex);
      CoveredNothing(log, call.covered);
    }
  }

  lemma SteadyLog(h: History, v: int)
    requires Steady(h) && Sized(h) && 0 <= v < |h.log|
    ensures Matched(h, h.log[v])
  {
  }

  lemma InstallsSteady(h: History, nodes: seq<Node>, nd: Node, call: SnapCall)
    requires Steady(h) && Sized(h) && Installs(h, nodes, nd, call) && CleanInstall(nd, call.args) && SnapCommits(h, call)
    ensures 0 <= call.task.to < |h.log|
    ensures Steady(Install(h, call.task.to, Covered(h.log[call.task.to], call.covered)))
  {
    hide Steady, Installs, Committed, Covered, CleanInstall, Agree;
    InstallsFacts(h, nodes, nd, call);
    CleanCovered(h, nodes, nd, call);
    if |call.covered| >= |h.log[call.task.to]| {
      InstallSteady(h, call.task.to, call.covered);
    } else {
      InstallNothing(h, call.task.to);
    }
  }

  /** The commit index an install leaves is inside a committed prefix. */
  lemma InstallCommits(h: History, nodes: seq<Node>, nd: Node, call: SnapCall)
    requires Steady(h) && Sized(h) && Installs(h, nodes, nd, call) && CleanInstall(nd, call.args) && SnapCommits(h, call)
    requires 0 <= call.task.to < |h.log| && CommitOk(h, nd, call.task.to)
    ensures var log, c := Covered(h.log[call.task.to], call.covered), Max(nd.commitIndex, call.args.lastIndex);
      0 <= c < |log| && Committed(h, log[..c + 1], nd.term)
  {
    hide Steady, Installs, Committed, Covered, CleanInstall;
    InstallsFacts(h, nodes, nd, call);
    CleanCovered(h, nodes, nd, call);
    var log, covered := h.log[call.task.to], call.covered;
    if |covered| >= |log| {
      assert covered[..call.args.lastIndex + 1] == covered;
    } else if nd.commitIndex < call.args.lastIndex {
      assert log[..call.args.lastIndex + 1] == covered;
    }
  }

  lemma TrafficSnaps(s: Cluster, call: SnapCall)
    requires TrafficCommitted(s) && call in s.snapCalls
    ensures SnapCommits(s.past, call)
  {
  }

  lemma InstallKeepsOrPasses(nd: Node, args: SnapArgs)
    ensures var (nd', _, msgs) := InstallSnapshot(nd, args);
      && nd'.term >= nd.term
      && (msgs == [] ==> nd'.commitIndex == nd.commitIndex)
      && (msgs != [] ==> args.term >= nd.term && nd.snapIndex < args.lastIndex)
      && (forall m | m in msgs :: m.Snapshot?)
  {
  }

  lemma CleanInstallMet(nd: Node, met: Node, args: SnapArgs)
    requires met == Meet(nd, args.term).(status := Follower) && args.term >= nd.term && CleanInstall(nd, args)
    ensures CleanInstall(met, args)
  {
  }

  lemma InstallsClean(h: History, nodes: seq<Node>, nd: Node, call: SnapCall)
    requires Steady(h) && Sized(h) && Installs(h, nodes, nd, call) && CleanInstall(nd, call.args) && SnapCommits(h, call)
    requires 0 <= call.task.to < |h.log| && CommitOk(h, nd, call.task.to)
    ensures var h' := Install(h, call.task.to, Covered(h.log[call.task.to], call.covered));
      && Steady(h') && Sized(h') && call.task.to < |h'.log|
      && InstallSnapshot(nd, call.args).0.term == nd.term
      && InstallSnapshot(nd, call.args).2 != []
      && CommitOk(h', InstallSnapshot(nd, call.args).0, call.task.to)
  {
    hide Steady, Installs, Committed, Covered, CleanInstall, Agree, InstallSnapshot, Represents, Sound, Grows, OnlyTouches, Good;
    InstallsFacts(h, nodes, nd, call);
    CoveredGood(h, nodes, nd, call);
    InstallsSteady(h, nodes, nd, call);
    InstallKeeps(h, call.task.to, Covered(h.log[call.task.to], call.covered));
    InstallCommits(h, nodes, nd, call);
    InstallsIs(nd, h.log[call.task.to], call);
    var log, c := Covered(h.log[call.task.to], call.covered), Max(nd.commitIndex, call.args.lastIndex);
    CommittedGrows(h, Install(h, call.task.to, log), log[..c + 1], nd.term, nd.term);
  }

  lemma InstalledMoved(s: Cluster, call: SnapCall)
    requires Enabled(s, DeliverSnapshot(call)) && HasPast(s, call.task.to) && InstallSnapshot(s.nodes[call.task.to], call.args).2 != []
    requires var i, nd := call.task.to, s.nodes[call.task.to];
      var met := Meet(nd, call.args.term).(status := Follower);
      var r := Raise(s.past, i, met.term);
      var h' := Install(r, i, Covered(r.log[i], call.covered));
      && call.args.term >= nd.term && Steady(h') && Sized(h') && i < |h'.log|
      && InstallSnapshot(met, call.args).0.term == met.term && CommitOk(h', InstallSnapshot(met, call.args).0, i)
    ensures CleanlyMoved(s, DoDeliverSnapshot(s, call), call.task.to)
  {
    hide Steady, InstallSnapshot, CommitOk, Covered;
    var i, nd := call.task.to, s.nodes[call.task.to];
    var met := Meet(nd, call.args.term).(status := Follower);
    var r := Raise(s.past, i, met.term);
    SnapshotMeets(nd, call.args);
    InstallKeepsOrPasses(nd, call.args);
    assert r.term[i := met.term] == r.term;
  }

  lemma SkippedMoved(s: Cluster, call: SnapCall)
    requires CleanInv(s) && Enabled(s, DeliverSnapshot(call)) && HasPast(s, call.task.to)
    requires InstallSnapshot(s.nodes[call.task.to], call.args).2 == []
    ensures CleanlyMoved(s, DoDeliverSnapshot(s, call), call.task.to)
  {
    hide CleanInv, Inv, Grows, CleanlyMoved, Steady, CommitsOk, TrafficCommitted, Sound, SelfAcks, NodeOk, InstallSnapshot, Covered;
    var i := call.task.to;
    CleanFacts(s);
    InvNode(s, i);
    InstallKeepsOrPasses(s.nodes[i], call.args);
    DeliverSnapshotInv(s, call);
    RaiseSteady(s.past, i, InstallSnapshot(s.nodes[i], call.args).0.term);
    assert s.stream[i] + [] == s.stream[i];
    assert s.stream[i := s.stream[i]] == s.stream;
    TermMoved(s, DoDeliverSnapshot(s, call), i);
  }

  lemma SnapshotsClean(s: Cluster, call: SnapCall)
    requires CleanInv(s) && Enabled(s, DeliverSnapshot(call)) && HasPast(s, call.task.to) && CleanInstall(s.nodes[call.task.to], call.args)
    ensures CleanlyMoved(s, DoDeliverSnapshot(s, call), call.task.to)
  {
    hide CleanInv, Inv, Grows, CleanlyMoved, Steady, CommitsOk, TrafficCommitted, Sound, SelfAcks, NodeOk, CommitOk, InstallSnapshot, Covered, SnapCallOk, CleanInstall, OnlyTouches, SnapCommits;
    var i, nd := call.task.to, s.nodes[call.task.to];
    CleanFacts(s);
    InvNode(s, i);
    NodeCommits(s, i);
    InvSnapCall(s, call);
    TrafficSnaps(s, call);
    InstallKeepsOrPasses(nd, call.args);
    if InstallSnapshot(nd, call.args).2 != [] {
      var met := Meet(nd, call.args.term).(status := Follower);
      var r := Raise(s.past, i, met.term);
      SnapshotMet(s.past, nd, i, call.args.term);
      RaiseSteady(s.past, i, met.term);
      RaisedCommit(s.past, r, nd, met, i);
      SnapCallStays(s.past, r, s.nodes, s.nodes, call);
      SnapStays(s.past, r, call);
      CleanInstallMet(nd, met, call.args);
      InstallsClean(r, s.nodes, met, call);
      InstalledMoved(s, call);
    } else {
      SkippedMoved(s, call);
    }
  }

  // ----- every step ------------------------------------------------------------------------

  lemma ActorClean(s: Cluster, step: Step)
    requires CleanInv(s) && Enabled(s, step) && HasPast(s, Actor(step)) && Clean(s, step)
    ensures CleanlyMoved(s, Perform(s, step), Actor(step))
  {
    hide CleanInv, CleanlyMoved, CleanAppend, CleanInstall, HasPast, DoElect, DoDeliverVote, DoTakeVote, DoPropose, DoHeartBeat,
      DoDeliverAppend, DoTakeAppend, DoCompact, DoSendSnapshot, DoDeliverSnapshot, DoTakeSnapshotAnswer, DoDeliver;
    match step
    case Elect(i) => StandsClean(s, i);
    case DeliverVote(call) => VotesClean(s, call);
    case TakeVote(answer) => CountsClean(s, answer);
    case Propose(i, command) => ProposesClean(s, i, command);
    case HeartBeat(i) => BeatsClean(s, i);
    case DeliverAppend(call) => AppendsClean(s, call);
    case TakeAppend(answer) => TakesClean(s, answer);
    case Compact(i, index, data) => CompactsClean(s, i, index, data);
    case SendSnapshot(task) => SendsSnapshotClean(s, task);
    case DeliverSnapshot(call) => SnapshotsClean(s, call);
    case TakeSnapshotAnswer(answer) => AnswersSnapshotClean(s, answer);
    case Deliver(i) => DeliversClean(s, i);
  }

  lemma CleanStepKeeps(s: Cluster, step: Step)
    requires CleanInv(s) && Enabled(s, step) && Clean(s, step)
    ensures HasPast(s, Actor(step)) && CleanInv(Perform(s, step))
  {
    hide Inv, Steady, CommitsOk, TrafficCommitted, Perform, HasPast, Grows, Clean, Enabled, CommitOk, Sound, SelfAcks;
    StepKeeps(s, step);
    hide CleanInv;
    CleanFacts(s);
    ActorClean(s, step);
    var s' := Perform(s, step);
    InvSized(s);
    InvSized(s');
    MovedCommits(s, step);
    MovedTraffic(s, s', Actor(step));
    MovedSteady(s, s', Actor(step));
    CleanInvIs(s');
  }

  lemma MovedSteady(s: Cluster, s': Cluster, i: int)
    requires CleanlyMoved(s, s', i)
    ensures Steady(s'.past)
  {
  }

  lemma CleanInvIs(s: Cluster)
    requires Inv(s) && Steady(s.past) && CommitsOk(s) && TrafficCommitted(s)
    ensures CleanInv(s)
  {
  }

  // ----- runs ------------------------------------------------------------------------------

  /** A run all of whose deliveries are clean. */
  ghost predicate IsCleanRun(n: nat, states: seq<Cluster>, steps: seq<Step>) {
    IsRun(n, states, steps) && forall k | 0 <= k < |steps| :: Enabled(states[k], steps[k]) && Clean(states[k], steps[k])
  }

  lemma OriginCommitted(n: nat)
    requires n > 0
    ensures Committed(Origin(n), [ORIGIN], 0)
  {
    var h := Origin(n);
    forall v | v in Servers(n) ensures v in Ackers(h, 0, 0) {
      assert Ack(v, 0, 0) in h.acks;
    }
    SubsetCount(Servers(n), Ackers(h, 0, 0));
    assert PrefixOfChosen(h, [ORIGIN], 0, 0);
  }

  lemma InitClean(n: nat)
    requires n > 0
    ensures CleanInv(Init(n))
  {
    InitInv(n);
    OriginSteady(n);
    OriginCommitted(n);
    hide Inv, Steady, Committed;
    var s := Init(n);
    forall v | 0 <= v < n ensures CommitOk(s.past, s.nodes[v], v) {
      assert s.past.log[v][..1] == [ORIGIN];
    }
  }

  lemma {:induction false} CleanRunKeeps(n: nat, states: seq<Cluster>, steps: seq<Step>, k: int)
    requires IsCleanRun(n, states, steps) && 0 <= k < |states|
    ensures CleanInv(states[k])
    decreases k
  {
    hide CleanInv, Perform, Enabled, Clean, HasPast, Init;
    if k == 0 {
      InitClean(n);
    } else {
      CleanRunKeeps(n, states, steps, k - 1);
      assert Next(states[k - 1], steps[k - 1], states[k]);
      CleanStepKeeps(states[k - 1], steps[k - 1]);
    }
  }
}
