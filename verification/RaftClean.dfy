/**
  Clean runs: every step keeps the history steady and every commit index, every commit index in
  flight, every snapshot in flight and every command sent up inside a committed prefix.
*/
module RaftClean {
  import opened RaftLog
  import opened RaftHistory
  import opened RaftConsensus
  import opened RaftSteady
  import opened RaftNode
  import opened RaftCluster
  import opened RaftInvariant
  import opened RaftElectionSteps
  import opened RaftReplicationSteps
  import opened RaftSnapshotSteps
  import opened RaftSafety
  import opened RaftCommit

  ghost predicate CommitOk(h: History, nd: Node, v: int)
    requires Sized(h) && 0 <= v < |h.log|
  {
    0 <= nd.commitIndex < |h.log[v]| && Committed(h, h.log[v][..nd.commitIndex + 1], nd.term)
  }

  ghost predicate CommitsOk(s: Cluster) {
    && Sized(s.past) && |s.nodes| == |s.past.log| == |s.stream|
    && forall v | 0 <= v < |s.nodes| :: CommitOk(s.past, s.nodes[v], v)
  }

  ghost predicate CallCommits(h: History, call: AppendCall) {
    var args := call.args;
    && args.term in h.reign && 0 <= args.leaderCommit < |h.reign[args.term].log|
    && Committed(h, h.reign[args.term].log[..args.leaderCommit + 1], args.term)
  }

  ghost predicate SnapCommits(h: History, call: SnapCall) {
    Committed(h, call.covered, call.args.term)
  }

  /** A command sent up is the one some committed prefix has at its index. */
  ghost predicate SentCommitted(h: History, m: ApplyMsg) {
    m.Command? ==> exists p: Log, t: int :: Committed(h, p, t) && 0 <= m.index < |p| && p[m.index].command == m.command
  }

  ghost predicate TrafficCommitted(s: Cluster) {
    && (forall c | c in s.appendCalls :: CallCommits(s.past, c))
    && (forall c | c in s.snapCalls :: SnapCommits(s.past, c))
    && (forall v, m | 0 <= v < |s.stream| && m in s.stream[v] :: SentCommitted(s.past, m))
  }

  ghost predicate CleanInv(s: Cluster) {
    Inv(s) && Steady(s.past) && CommitsOk(s) && TrafficCommitted(s)
  }

  lemma CleanFacts(s: Cluster)
    requires CleanInv(s)
    ensures Inv(s) && Steady(s.past) && CommitsOk(s) && TrafficCommitted(s)
  {
  }

  lemma SteadySound(h: History)
    requires Steady(h)
    ensures Sound(h) && Sized(h) && AllMatched(h)
  {
  }

  // ----- growth ----------------------------------------------------------------------------

  lemma CommitStays(h: History, h': History, nd: Node, nd': Node, v: int)
    requires Sound(h') && Grows(h, h') && Sized(h) && Sized(h') && 0 <= v < |h.log| == |h'.log|
    requires CommitOk(h, nd, v) && h'.log[v] == h.log[v] && nd'.commitIndex == nd.commitIndex && nd'.term >= nd.term
    ensures CommitOk(h', nd', v)
  {
    hide Sound, Grows, Committed;
    CommittedGrows(h, h', h.log[v][..nd.commitIndex + 1], nd.term, nd'.term);
  }

  lemma CallStays(h: History, h': History, call: AppendCall)
    requires Sound(h') && Grows(h, h') && CallCommits(h, call)
    ensures CallCommits(h', call)
  {
    hide Sound, Grows, Committed;
    var t, c := call.args.term, call.args.leaderCommit;
    ReignKept(h, h', t);
    CommittedGrows(h, h', h.reign[t].log[..c + 1], t, t);
    assert h'.reign[t].log[..c + 1] == h.reign[t].log[..c + 1];
  }

  lemma SentStays(h: History, h': History, m: ApplyMsg)
    requires Sound(h') && Grows(h, h') && SentCommitted(h, m)
    ensures SentCommitted(h', m)
  {
    hide Sound, Grows, Committed;
    if m.Command? {
      var p: Log, t: int :| Committed(h, p, t) && 0 <= m.index < |p| && p[m.index].command == m.command;
      CommittedGrows(h, h', p, t, t);
    }
  }

  /** What one clean step of server i has to show. */
  ghost predicate CleanlyMoved(s: Cluster, s': Cluster, i: int) {
    && Steady(s'.past)
    && Sized(s'.past) && 0 <= i < |s'.past.log| && i < |s'.nodes| && CommitOk(s'.past, s'.nodes[i], i)
    && (forall c | c in s'.appendCalls && c !in s.appendCalls :: CallCommits(s'.past, c))
    && (forall c | c in s'.snapCalls && c !in s.snapCalls :: SnapCommits(s'.past, c))
    && (forall v, m | 0 <= v < |s'.stream| && v < |s.stream| && m in s'.stream[v] && m !in s.stream[v] :: SentCommitted(s'.past, m))
  }

  lemma OthersStand(s: Cluster, step: Step, u: int)
    requires Enabled(s, step) && HasPast(s, Actor(step)) && 0 <= u < |s.past.log| && u < |s.nodes| && u != Actor(step)
    ensures |Perform(s, step).past.log| == |s.past.log| && Perform(s, step).past.log[u] == s.past.log[u]
    ensures |Perform(s, step).nodes| == |s.nodes| && Perform(s, step).nodes[u] == s.nodes[u]
  {
    hide AppendEntries, CountAppend, CountVote, RequestVote, GetApplyLogs, HeartBeatTo, Merged, Covered, TakeSnapshot, InstallSnapshot;
  }

  lemma MovedCommits(s: Cluster, step: Step)
    requires CommitsOk(s) && Enabled(s, step) && HasPast(s, Actor(step)) && Inv(s)
    requires Inv(Perform(s, step)) && Grows(s.past, Perform(s, step).past) && CleanlyMoved(s, Perform(s, step), Actor(step))
    ensures CommitsOk(Perform(s, step))
  {
    hide Inv, Sound, SelfAcks, Grows, CommitOk, Steady, Perform, Enabled, HasPast;
    var s', i := Perform(s, step), Actor(step);
    InvSized(s);
    InvSized(s');
    GrowsSized(s.past, s'.past);
    forall u | 0 <= u < |s'.nodes| ensures CommitOk(s'.past, s'.nodes[u], u) {
      if u != i {
        OthersStand(s, step, u);
        CommitStays(s.past, s'.past, s.nodes[u], s'.nodes[u], u);
      }
    }
  }

  lemma MovedTraffic(s: Cluster, s': Cluster, i: int)
    requires TrafficCommitted(s) && Sound(s'.past) && Grows(s.past, s'.past) && CleanlyMoved(s, s', i)
    requires |s'.stream| == |s.stream|
    ensures TrafficCommitted(s')
  {
    hide Sound, Grows, CommitOk, Steady, CallCommits, SnapCommits, SentCommitted, Sized;
    forall c | c in s'.appendCalls ensures CallCommits(s'.past, c) {
      if c in s.appendCalls { CallStays(s.past, s'.past, c); }
    }
    forall c | c in s'.snapCalls ensures SnapCommits(s'.past, c) {
      if c in s.snapCalls { SnapStays(s.past, s'.past, c); }
    }
    forall v, m | 0 <= v < |s'.stream| && m in s'.stream[v] ensures SentCommitted(s'.past, m) {
      if m in s.stream[v] { SentStays(s.past, s'.past, m); }
    }
  }

  lemma SnapStays(h: History, h': History, call: SnapCall)
    requires Sound(h') && Grows(h, h') && SnapCommits(h, call)
    ensures SnapCommits(h', call)
  {
    hide Sound, Grows, Committed;
    CommittedGrows(h, h', call.covered, call.args.term, call.args.term);
  }

  // ----- steps that leave logs and commit indices alone ------------------------------------

  /** Server i's term may have risen; its log and commit index, and the traffic, are as they were. */
  ghost predicate OnlyTermMoved(s: Cluster, s': Cluster, i: int) {
    && 0 <= i < |s.nodes| && |s'.nodes| == |s.nodes| == |s.past.log| == |s'.past.log|
    && s'.past.log[i] == s.past.log[i]
    && s'.nodes[i].commitIndex == s.nodes[i].commitIndex && s'.nodes[i].term >= s.nodes[i].term
    && s'.appendCalls == s.appendCalls && s'.snapCalls == s.snapCalls && s'.stream == s.stream
  }

  lemma TermMoved(s: Cluster, s': Cluster, i: int)
    requires CleanInv(s) && Inv(s') && Grows(s.past, s'.past) && Steady(s'.past) && OnlyTermMoved(s, s', i)
    ensures CleanlyMoved(s, s', i)
  {
    hide Inv, Sound, SelfAcks, Grows, CommitOk, Steady;
    InvSized(s);
    InvSized(s');
    CommitStays(s.past, s'.past, s.nodes[i], s'.nodes[i], i);
  }

  lemma StandsClean(s: Cluster, i: int)
    requires CleanInv(s) && Up(s, i) && HasPast(s, i)
    ensures CleanlyMoved(s, DoElect(s, i), i)
  {
    hide CleanInv, Inv, Grows, CleanlyMoved, Steady, CommitsOk, TrafficCommitted, Sound, SelfAcks, NodeOk;
    CleanFacts(s);
    InvNode(s, i);
    ElectInv(s, i);
    ElectSteady(s.past, i);
    TermMoved(s, DoElect(s, i), i);
  }

  lemma GrantSteady(h: History, nd: Node, call: VoteCall)
    requires Steady(h) && Sized(h) && VoteCallOk(h, call) && NodeOk(h, nd, call.to) && nd.term == call.args.term
    requires CandidateUpToDate(nd, call.args.lastIndex, call.args.lastTerm)
    ensures Steady(Granted(h, call.to, call.args.candidate))
  {
    BallotUpToDate(h, nd, call);
    hide Steady, Sound, Represents, IndexSpace, VoteKnown, Leads, UpToDate, CandidateUpToDate;
    if (call.to, h.term[call.to]) !in h.vote {
      CastVoteSteady(h, call.to, call.args.candidate);
    }
  }

  lemma VoteSteady(h: History, nd: Node, call: VoteCall)
    requires Steady(h) && Sized(h) && Sound(h) && VoteCallOk(h, call) && NodeOk(h, nd, call.to)
    ensures 0 <= call.to < |h.log|
    ensures var (nd', reply) := RequestVote(nd, call.args);
      Steady(PastOfVote(h, call.to, nd', call.args, reply.granted))
  {
    hide Steady, Sound, VoteCallOk, NodeOk, CandidateUpToDate, Grows, OnlyTouches, CastVote;
    var args, v := call.args, call.to;
    VoteStale(h, nd, call);
    if args.term >= nd.term {
      var met := Meet(nd, args.term);
      MeetOk(h, nd, v, args.term);
      RaiseSteady(h, v, met.term);
      if RequestVote(nd, args).1.granted {
        VoteCallStays(h, Raise(h, v, met.term), call);
        GrantSteady(Raise(h, v, met.term), met, call);
      }
    }
  }

  lemma RequestVoteKeeps(nd: Node, args: VoteArgs)
    ensures var nd' := RequestVote(nd, args).0;
      nd'.commitIndex == nd.commitIndex && nd'.term >= nd.term
  {
  }

  lemma PastOfVoteLog(h: History, v: int, nd: Node, args: VoteArgs, granted: bool)
    requires Sized(h) && 0 <= v < |h.log|
    ensures PastOfVote(h, v, nd, args, granted).log == h.log
  {
  }

  lemma InvVoteCall(s: Cluster, call: VoteCall)
    requires Inv(s) && call in s.voteCalls
    ensures Sized(s.past) && VoteCallOk(s.past, call)
  {
  }

  lemma VotesClean(s: Cluster, call: VoteCall)
    requires CleanInv(s) && Enabled(s, DeliverVote(call)) && HasPast(s, call.to)
    ensures CleanlyMoved(s, DoDeliverVote(s, call), call.to)
  {
    hide CleanInv, Inv, Grows, CleanlyMoved, Steady, CommitsOk, TrafficCommitted, Sound, SelfAcks, NodeOk, VoteCallOk, RequestVote, PastOfVote;
    var nd := s.nodes[call.to];
    CleanFacts(s);
    InvNode(s, call.to);
    InvVoteCall(s, call);
    DeliverVoteInv(s, call);
    VoteSteady(s.past, nd, call);
    RequestVoteKeeps(nd, call.args);
    PastOfVoteLog(s.past, call.to, RequestVote(nd, call.args).0, call.args, RequestVote(nd, call.args).1.granted);
    TermMoved(s, DoDeliverVote(s, call), call.to);
  }

  lemma CountSteady(h: History, nd: Node, k: (int, int), j: int, reply: VoteReply, t: Tally)
    requires Steady(h) && CanTakeVote(h, nd, k, j, t) && Sized(h) && 0 <= k.0 < |h.log| && nd.term == h.term[k.0]
    requires reply.granted ==> reply.term == k.1 && VotedFor(h, j, k)
    ensures var (nd', num) := CountVote(nd, |h.log|, reply, t.num);
      Steady(PastOfCount(h, k.0, nd, nd', Count(t, j, num, reply.term == nd.term && reply.granted).counted + {k.0}))
  {
    hide Steady, CanTakeVote, VotedFor;
    if reply.term > nd.term {
      RaiseSteady(h, k.0, reply.term);
    } else if reply.term == nd.term && reply.granted && t.num + 1 >= |h.log| / 2 + 1 {
      MajoritySteady(h, nd, k, j, t);
    } else {
      PastSame(h, k.0, nd, {});
      assert h.term[k.0 := nd.term] == h.term;
    }
  }

  lemma MajoritySteady(h: History, nd: Node, k: (int, int), j: int, t: Tally)
    requires Steady(h) && CanTakeVote(h, nd, k, j, t) && Sized(h) && 0 <= k.0 < |h.log| && VotedFor(h, j, k)
    requires nd.term == h.term[k.0] == k.1 && t.num + 1 >= |h.log| / 2 + 1
    ensures nd.status != Leader && Steady(Win(h, k.0, t.counted + {j} + {k.0}))
  {
    CandidateKnown(h, nd, k, j, t);
    MajorityWins(h, nd, k, t, j);
    hide Steady, Sound, SelfAcks, ElectionOk, NodeOk, ElectedBy;
    WinSteady(h, k.0, t.counted + {j} + {k.0});
  }

  lemma CandidateKnown(h: History, nd: Node, k: (int, int), j: int, t: Tally)
    requires CanTakeVote(h, nd, k, j, t)
    ensures k in h.candidacy && k.1 > 0 && VotedFor(h, k.0, k)
  {
    assert GoodCandidacy(h, k);
  }

  lemma CountVoteKeeps(nd: Node, n: nat, reply: VoteReply, num: int)
    ensures var nd' := CountVote(nd, n, reply, num).0;
      nd'.commitIndex == nd.commitIndex && nd'.term >= nd.term
  {
  }

  lemma PastOfCountLog(h: History, c: int, nd: Node, nd': Node, electors: set<int>)
    requires Sized(h) && 0 <= c < |h.log|
    ensures PastOfCount(h, c, nd, nd', electors).log == h.log
  {
  }

  lemma CountsClean(s: Cluster, a: VoteAnswer)
    requires CleanInv(s) && Enabled(s, TakeVote(a)) && HasPast(s, a.call.args.candidate)
    ensures CleanlyMoved(s, DoTakeVote(s, a), a.call.args.candidate)
  {
    hide CleanInv, Inv, Grows, CleanlyMoved, Steady, CommitsOk, TrafficCommitted, Sound, SelfAcks, NodeOk, CanTakeVote, VotedFor, CountVote, PastOfCount, Count;
    var k := (a.call.args.candidate, a.call.args.term);
    var nd, t := s.nodes[k.0], s.elections[k];
    CleanFacts(s);
    InvNode(s, k.0);
    CanTakeVoteHolds(s, a);
    TakeVoteInv(s, a);
    CountSteady(s.past, nd, k, a.call.to, a.reply, t);
    CountVoteKeeps(nd, |s.nodes|, a.reply, t.num);
    var (nd', num) := CountVote(nd, |s.nodes|, a.reply, t.num);
    PastOfCountLog(s.past, k.0, nd, nd', Count(t, a.call.to, num, a.reply.term == nd.term && a.reply.granted).counted + {k.0});
    TermMoved(s, DoTakeVote(s, a), k.0);
  }

  lemma AnswersSnapshotClean(s: Cluster, a: SnapAnswer)
    requires CleanInv(s) && Enabled(s, TakeSnapshotAnswer(a)) && HasPast(s, a.call.task.from)
    ensures CleanlyMoved(s, DoTakeSnapshotAnswer(s, a), a.call.task.from)
  {
    hide CleanInv, Inv, Grows, CleanlyMoved, Steady, CommitsOk, TrafficCommitted, Sound, SelfAcks, NodeOk, SnapshotAnswered;
    var i := a.call.task.from;
    CleanFacts(s);
    InvNode(s, i);
    TakeSnapshotAnswerInv(s, a);
    SnapshotAnsweredKeeps(s.nodes[i], a.call.task.to, a.call.args, a.term);
    RaiseSteady(s.past, i, SnapshotAnswered(s.nodes[i], a.call.task.to, a.call.args, a.term).term);
    TermMoved(s, DoTakeSnapshotAnswer(s, a), i);
  }

  lemma SnapshotAnsweredKeeps(nd: Node, j: int, args: SnapArgs, term: int)
    requires HasPeer(nd, j)
    ensures var nd' := SnapshotAnswered(nd, j, args, term);
      nd'.commitIndex == nd.commitIndex && nd'.term >= nd.term
  {
  }

  lemma CompactsClean(s: Cluster, i: int, index: int, data: string)
    requires CleanInv(s) && Up(s, i) && HasPast(s, i)
    ensures CleanlyMoved(s, DoCompact(s, i, index, data), i)
  {
    hide CleanInv, Inv, Grows, CleanlyMoved, Steady, CommitsOk, TrafficCommitted, Sound, SelfAcks, TakeSnapshot, Represents, IndexSpace, OnlyTouches;
    CleanFacts(s);
    InvNode(s, i);
    NothingNew(s.past, i);
    CompactInv(s, i, index, data);
    TakeSnapshotIs(s.nodes[i], s.past.log[i], |s.past.log|, index, data);
    TermMoved(s, DoCompact(s, i, index, data), i);
  }

  // ----- steps that send -------------------------------------------------------------------

  lemma NodeCommits(s: Cluster, i: int)
    requires CommitsOk(s) && 0 <= i < |s.nodes|
    ensures Sized(s.past) && i < |s.past.log| && CommitOk(s.past, s.nodes[i], i)
  {
  }

  lemma BeatCommits(h: History, nd: Node, v: int, j: int)
    requires Sized(h) && 0 <= v < |h.log| && NodeOk(h, nd, v) && nd.status == Leader && CommitOk(h, nd, v)
    requires 0 <= j < |h.log| && HasPeer(nd, j) && HeartBeatTo(nd, v, j).Append?
    ensures forall r :: CallCommits(h, AppendCall(r, j, HeartBeatTo(nd, v, j).args))
  {
    hide NodeOk, Committed, HeartBeatTo, Stretch;
    HeartBeatOk(h, nd, v, j);
    LeaderLog(h, nd, v);
    LeaderPeer(h, nd, v, j);
  }

  lemma BeatsClean(s: Cluster, i: int)
    requires CleanInv(s) && Up(s, i) && HasPast(s, i)
    ensures CleanlyMoved(s, DoHeartBeat(s, i), i)
  {
    hide CleanInv, Inv, Steady, TrafficCommitted, Sound, SelfAcks, NodeOk, CommitOk, HeartBeatTo, CallCommits;
    CleanFacts(s);
    InvNode(s, i);
    NodeCommits(s, i);
    CommitKept(s.past, s.nodes[i], i);
    forall c | c in DoHeartBeat(s, i).appendCalls && c !in s.appendCalls ensures CallCommits(s.past, c) {
      BeatCommits(s.past, s.nodes[i], i, c.to);
      assert c == AppendCall(c.round, c.to, HeartBeatTo(s.nodes[i], i, c.to).args);
    }
  }

  lemma CommitKept(h: History, nd: Node, v: int)
    requires Sized(h) && 0 <= v < |h.log| && CommitOk(h, nd, v)
    ensures CommitOk(h, Exit(nd), v)
  {
  }

  lemma PrefixCommitted(h: History, log: Log, a: int, b: int, t: int)
    requires 0 <= a <= b < |log| && Committed(h, log[..b + 1], t)
    ensures Committed(h, log[..a + 1], t)
  {
    CommittedShorter(h, log[..b + 1], log[..a + 1], t);
  }

  lemma SendsSnapshotClean(s: Cluster, task: SnapTask)
    requires CleanInv(s) && Enabled(s, Step.SendSnapshot(task)) && HasPast(s, task.from)
    ensures CleanlyMoved(s, DoSendSnapshot(s, task), task.from)
  {
    hide CleanInv, Inv, Steady, TrafficCommitted, Sound, SelfAcks, Represents, VoteKnown, Leads, Committed;
    CleanFacts(s);
    InvNode(s, task.from);
    NodeCommits(s, task.from);
    var nd, log := s.nodes[task.from], s.past.log[task.from];
    PrefixCommitted(s.past, log, nd.snapIndex, nd.commitIndex, nd.term);
  }

  lemma {:induction false} CommandsOf(log: Log, lo: int, hi: int, m: ApplyMsg)
    requires 0 <= lo <= hi < |log| && m in Commands(log, lo, hi)
    ensures m.Command? && lo < m.index <= hi && log[m.index].command == m.command
    decreases hi - lo
  {
    if lo < hi && m != Command(lo + 1, log[lo + 1].command) {
      CommandsOf(log, lo + 1, hi, m);
    }
  }

  lemma CommandCommitted(h: History, log: Log, lo: int, hi: int, t: int, m: ApplyMsg)
    requires 0 <= lo <= hi < |log| && m in Commands(log, lo, hi) && Committed(h, log[..hi + 1], t)
    ensures SentCommitted(h, m)
  {
    hide Committed;
    CommandsOf(log, lo, hi, m);
    assert log[..hi + 1][m.index] == log[m.index];
  }

  lemma DeliversClean(s: Cluster, i: int)
    requires CleanInv(s) && Up(s, i) && HasPast(s, i)
    ensures CleanlyMoved(s, DoDeliver(s, i), i)
  {
    hide CleanInv, Inv, Steady, TrafficCommitted, Sound, SelfAcks, Represents, IndexSpace, VoteKnown, Leads, Committed, GetApplyLogs, SentCommitted;
    CleanFacts(s);
    InvNode(s, i);
    NodeCommits(s, i);
    var nd, log := s.nodes[i], s.past.log[i];
    GetApplyLogsIs(nd, log, |s.past.log|);
    forall m | m in Commands(log, nd.lastApplied, nd.commitIndex) ensures SentCommitted(s.past, m) {
      CommandCommitted(s.past, log, nd.lastApplied, nd.commitIndex, nd.term, m);
    }
  }
}
