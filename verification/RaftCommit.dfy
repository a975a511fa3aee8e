/**
  What raises a commit index, in every run: a leader's is backed by a majority that held the entry,
  a follower's never passes what it has just verified.
*/
module RaftCommit {
  import opened RaftLog
  import opened RaftHistory
  import opened RaftConsensus
  import opened RaftNode
  import opened RaftCluster
  import opened RaftInvariant
  import opened RaftElectionSteps
  import opened RaftReplicationSteps
  import opened RaftSnapshotSteps
  import opened RaftSafety

  // ----- what an acknowledgement means -----------------------------------------------------

  /** The server of the acknowledgement is in its term and holds the leader's entry at its index. */
  ghost predicate HeldIn(h: History, a: Ack) {
    && Sized(h) && 0 <= a.server < |h.log| && h.term[a.server] == a.term
    && 0 <= a.index < |h.log[a.server]|
    && a.term in h.reign && a.index < |h.reign[a.term].log|
    && h.log[a.server][a.index] == h.reign[a.term].log[a.index]
  }

  lemma ProposedHeld(h: History, i: int, command: string)
    requires Sized(h) && 0 <= i < |h.log| && h.term[i] in h.reign
    ensures HeldIn(RaftHistory.Propose(h, i, command), Ack(i, h.term[i], |h.log[i]|))
  {
  }

  lemma SameEntry(h: History, a: Log, b: Log, i: int)
    requires Sourced(h, a) && Sourced(h, b) && 0 <= i < |a| && i < |b| && a[i].term == b[i].term
    ensures a[i] == b[i]
  {
  }

  /** The batch's last position holds the leader's entry after the merge. */
  lemma MergedEnd(h: History, log: Log, lead: Log, args: AppendArgs, end: int)
    requires Sourced(h, log) && Sourced(h, lead) && Stretch(lead, args, end)
    requires args.prevIndex < |log| && log[args.prevIndex].term == args.prevTerm
    ensures 0 <= end < |Merged(log, args.prevIndex, args.entries)| && Merged(log, args.prevIndex, args.entries)[end] == lead[end]
  {
    MergedAt(log, args.prevIndex, args.entries);
    SameEntry(h, log, lead, args.prevIndex);
  }

  lemma PassesLogs(h: History, nd: Node, call: AppendCall)
    requires Passes(h, nd, call)
    ensures 0 <= call.to < |h.log| && call.args.term in h.reign && 0 <= call.args.prevIndex < |h.log[call.to]|
    ensures Sourced(h, h.log[call.to]) && Sourced(h, h.reign[call.args.term].log)
    ensures Stretch(h.reign[call.args.term].log, call.args, call.args.prevIndex + |call.args.entries|)
    ensures h.log[call.to][call.args.prevIndex].term == call.args.prevTerm
  {
    assert GoodLog(h, call.to) && GoodReign(h, call.args.term);
  }

  lemma PassedEnd(h: History, nd: Node, call: AppendCall)
    requires Passes(h, nd, call)
    ensures Sized(h) && call.args.term in h.reign && 0 <= call.args.prevIndex < |h.log[call.to]|
    ensures var end := call.args.prevIndex + |call.args.entries|;
      var log, lead := AcceptedLog(h, call), h.reign[call.args.term].log;
      end < |log| && end < |lead| && log[end] == lead[end]
  {
    hide Passes, Sourced, Stretch, Merged;
    PassesSized(h, nd, call);
    PassesLogs(h, nd, call);
    StretchEnd(h.reign[call.args.term].log, call.args, call.args.prevIndex + |call.args.entries|);
    MergedEnd(h, h.log[call.to], h.reign[call.args.term].log, call.args, call.args.prevIndex + |call.args.entries|);
  }

  lemma AcceptedHeld(h: History, nd: Node, call: AppendCall)
    requires Passes(h, nd, call)
    ensures Sized(h) && HeldIn(Accepted(h, call), Ack(call.to, nd.term, call.args.prevIndex + |call.args.entries|))
  {
    hide Passes, AcceptedLog, Sound;
    PassesSized(h, nd, call);
    PassedEnd(h, nd, call);
  }

  lemma AppendAckHeld(s: Cluster, call: AppendCall, a: Ack)
    requires Inv(s) && Enabled(s, DeliverAppend(call)) && HasPast(s, call.to)
    requires a in DoDeliverAppend(s, call).past.acks && a !in s.past.acks
    ensures HeldIn(DoDeliverAppend(s, call).past, a)
  {
    hide Inv, Sound, SelfAcks, NodeOk, AppendCallOk, FromReign, AppendEntries, Merged, HeldIn, Passes, Appended;
    InvNode(s, call.to);
    InvAppendCall(s, call);
    CallFromReign(s.past, s.rounds, call);
    var nd, args := s.nodes[call.to], call.args;
    if AppendEntries(nd, args).1.success {
      SuccessPasses(s.past, nd, call);
      var met := Meet(nd, args.term).(status := Follower);
      AcceptedHeld(Raise(s.past, call.to, met.term), met, call);
      PassesSized(Raise(s.past, call.to, met.term), met, call);
      PassesCommit(Raise(s.past, call.to, met.term), met, call);
      AppendedSame(met, AcceptedLog(Raise(s.past, call.to, met.term), call), args);
    }
  }

  lemma AppendedSame(nd: Node, log: Log, args: AppendArgs)
    requires 0 <= nd.snapIndex < |log|
    ensures Appended(nd, log, args).term == nd.term
    ensures Appended(nd, log, args).commitIndex <= Max(nd.commitIndex, args.leaderCommit)
    ensures nd.commitIndex < |log| ==> nd.commitIndex <= Appended(nd, log, args).commitIndex < |log|
  {
  }

  lemma ProposeAckHeld(s: Cluster, i: int, command: string, a: Ack)
    requires Up(s, i) && HasPast(s, i)
    requires a in DoPropose(s, i, command).past.acks && a !in s.past.acks
    ensures HeldIn(DoPropose(s, i, command).past, a)
  {
    hide Start, HeldIn;
    if s.past.term[i] in s.past.reign {
      ProposedHeld(s.past, i, command);
    }
  }

  /** An acknowledgement is recorded only at a moment when its server holds the leader's entry. */
  lemma NewAckHeld(s: Cluster, step: Step, a: Ack)
    requires Inv(s) && Enabled(s, step) && HasPast(s, Actor(step))
    requires a in Perform(s, step).past.acks && a !in s.past.acks
    ensures HeldIn(Perform(s, step).past, a)
  {
    hide Inv, DoPropose, DoDeliverAppend, DoElect, DoDeliverVote, DoTakeVote, DoHeartBeat, DoTakeAppend, DoCompact,
      DoSendSnapshot, DoDeliverSnapshot, DoTakeSnapshotAnswer, DoDeliver, HeldIn;
    if step.Propose? {
      ProposeAckHeld(s, step.server, step.command, a);
    } else if step.DeliverAppend? {
      AppendAckHeld(s, step.appendCall, a);
    } else {
      OnlyTheseAcknowledge(s, step);
    }
  }

  lemma OnlyTheseAcknowledge(s: Cluster, step: Step)
    requires Enabled(s, step) && HasPast(s, Actor(step)) && !step.Propose? && !step.DeliverAppend?
    ensures Perform(s, step).past.acks == s.past.acks
  {
    hide AppendEntries, InstallSnapshot, GetApplyLogs, CountAppend, CountVote, RequestVote, TakeSnapshot, Covered, HeartBeatTo;
  }

  /** Every acknowledgement was true at some earlier moment of the run. */
  lemma {:induction false} AckWasHeld(n: nat, states: seq<Cluster>, steps: seq<Step>, k: int, a: Ack)
    requires IsRun(n, states, steps) && 0 <= k < |states| && a in states[k].past.acks
    ensures exists m :: 0 <= m <= k && HeldIn(states[m].past, a)
    decreases k
  {
    hide Inv, Perform, HeldIn, Enabled;
    if k == 0 {
      InitHeld(n, a);
      assert HeldIn(states[0].past, a);
    } else {
      RunKeeps(n, states, steps, k - 1);
      assert Next(states[k - 1], steps[k - 1], states[k]);
      if a in states[k - 1].past.acks {
        AckWasHeld(n, states, steps, k - 1, a);
      } else {
        NewAckHeld(states[k - 1], steps[k - 1], a);
        assert HeldIn(states[k].past, a);
      }
    }
  }

  lemma InitHeld(n: nat, a: Ack)
    requires n > 0 && a in Init(n).past.acks
    ensures HeldIn(Init(n).past, a)
  {
  }

  // ----- a leader's commit -----------------------------------------------------------------

  lemma AckersServe(h: History, t: int, i: int)
    requires Sound(h)
    ensures Ackers(h, t, i) <= Servers(|h.log|)
  {
    forall s | s in Ackers(h, t, i) ensures s in Servers(|h.log|) {
      assert GoodAck(h, Ack(s, t, i));
    }
  }

  /** A round whose counter reaches the majority has its end acknowledged by a majority, the leader included. */
  lemma RoundMajority(h: History, r: Round, j: int)
    requires Sound(h) && SelfAcks(h) && Sized(h) && RoundOk(h, r) && j in Peers(|h.log|, r.leader) && j !in r.tally.done
    requires r.tally.num + 1 >= |h.log| / 2 + 1 && Ack(j, r.term, r.end) in h.acks
    requires h.reign[r.term].log[r.end].term == r.term
    ensures Chosen(h, r.term, r.end)
  {
    hide Sound, SelfAcks, Ackers;
    var n, c := |h.log|, r.tally.counted;
    CountOk(n, r.leader, r.tally, j, 0, true);
    LeaderAcks(h, r.term, r.end);
    var q := c + {j} + {r.leader};
    CountersJoin(n, r, j);
    AckersAre(h, r.term, r.end, q);
    SubsetCount(q, Ackers(h, r.term, r.end));
    AckersServe(h, r.term, r.end);
  }

  lemma LeaderAcks(h: History, t: int, i: int)
    requires SelfAcks(h) && t in h.reign && t > 0 && 0 <= i < |h.reign[t].log| && h.reign[t].log[i].term == t
    ensures Ack(h.reign[t].leader, t, i) in h.acks
  {
  }

  lemma AckersAre(h: History, t: int, i: int, q: set<int>)
    requires forall v | v in q :: Ack(v, t, i) in h.acks
    ensures q <= Ackers(h, t, i)
  {
    forall v | v in q ensures v in Ackers(h, t, i) {
      assert Ack(v, t, i).server == v;
    }
  }

  /** The counted peers, one more and the leader are different servers. */
  lemma CountersJoin(n: nat, r: Round, j: int)
    requires TallyOk(n, r.leader, r.tally) && j in Peers(n, r.leader) && j !in r.tally.done
    ensures |r.tally.counted + {j} + {r.leader}| == |r.tally.counted| + 2
  {
    assert r.leader !in r.tally.counted && j !in r.tally.counted;
    assert |r.tally.counted + {j}| == |r.tally.counted| + 1;
  }

  lemma CommitRaised(nd: Node, n: nat, args: AppendArgs, num: int)
    requires CommitAfter(nd, n, args, num) > nd.commitIndex
    ensures num + 1 >= n / 2 + 1 && |args.entries| > 0 && args.entries[|args.entries| - 1].term == nd.term
    ensures CommitAfter(nd, n, args, num) == args.prevIndex + |args.entries|
  {
  }

  lemma CountedCommit(h: History, nd: Node, rounds: seq<Round>, a: AppendAnswer)
    requires CanTakeAppend(h, nd, rounds, a) && CountsIn(nd, a.reply) && 0 <= a.call.round < |rounds| && Sized(h) && SelfAcks(h)
    requires CommitAfter(nd, |h.log|, a.call.args, rounds[a.call.round].tally.num) > nd.commitIndex
    ensures var c := CommitAfter(nd, |h.log|, a.call.args, rounds[a.call.round].tally.num);
      && Chosen(h, nd.term, c) && nd.term > 0 && 0 <= a.call.args.leader < |h.log| && h.reign[nd.term].log == h.log[a.call.args.leader]
      && h.reign[nd.term].leader == a.call.args.leader
  {
    hide CanTakeAppend, Sound, SelfAcks, NodeOk, AppendAnswerOk, RoundOk, Stretch, CommitAfter, LastIndex, Chosen;
    var r := rounds[a.call.round];
    CanTakeFacts(h, nd, rounds, a);
    AnswerToLeader(h, nd, rounds, a);
    AnswerOfTerm(h, rounds, a);
    AnswerPeer(h, rounds, a);
    CommitRaised(nd, |h.log|, a.call.args, r.tally.num);
    RoundMajority(h, r, a.call.to);
    RoundTerm(h, r);
  }

  lemma RoundTerm(h: History, r: Round)
    requires Sized(h) && RoundOk(h, r)
    ensures r.term > 0
  {
  }

  /**
    A leader that raises its commit index to i has, for entry i, an entry of its own term that a
    majority of servers, itself included, acknowledged.
  */
  lemma CommitIsChosen(s: Cluster, a: AppendAnswer)
    requires Inv(s) && Enabled(s, TakeAppend(a)) && HasPast(s, a.call.args.leader)
    requires DoTakeAppend(s, a).nodes[a.call.args.leader].commitIndex > s.nodes[a.call.args.leader].commitIndex
    ensures var i, s' := a.call.args.leader, DoTakeAppend(s, a);
      var nd' := s'.nodes[i];
      && s'.past == s.past && nd'.term == s.nodes[i].term > 0
      && Chosen(s.past, nd'.term, nd'.commitIndex)
      && 0 <= i < |s.past.log| && s.past.reign[nd'.term].log == s.past.log[i] && s.past.reign[nd'.term].leader == i
  {
    hide Inv, CanTakeAppend, TakenIn, CountAppend, RoundOk, Count, CommitAfter, NodeOk, Sound, SelfAcks, Chosen, CountsIn;
    var i := a.call.args.leader;
    var nd, r := s.nodes[i], s.rounds[a.call.round];
    CanTakeAppendHolds(s, a);
    InvNode(s, i);
    TakeAppendOk(s.past, nd, s.rounds, a, r.tally.num);
    if CountsIn(nd, a.reply) {
      CountedCommit(s.past, nd, s.rounds, a);
      CountKeepsTerm(nd, |s.nodes|, a.call.to, a.call.args, a.reply, r.tally.num);
      assert s.past.term[i := nd.term] == s.past.term;
    }
  }

  lemma CountKeepsTerm(nd: Node, n: nat, j: int, args: AppendArgs, reply: AppendReply, num: int)
    requires HasPeer(nd, j) && CountsIn(nd, reply)
    ensures CountAppend(nd, n, j, args, reply, num).0.term == nd.term
  {
  }

  /** Server q was in term e.term and held e, in its log or under its snapshot. */
  ghost predicate Held(s: Cluster, q: int, e: Entry) {
    && Sized(s.past) && 0 <= q < |s.past.log| && s.past.term[q] == e.term
    && 0 <= e.index < |s.past.log[q]| && s.past.log[q][e.index] == e
  }

  ghost predicate HeldBy(states: seq<Cluster>, k: int, q: int, e: Entry) {
    exists m :: 0 <= m <= k && m < |states| && Held(states[m], q, e)
  }

  /** The entry of a reign does not change as the reign grows. */
  lemma HeldMeans(h: History, g: History, a: Ack)
    requires Grows(h, g) && HeldIn(h, a) && Sound(g) && h.reign[a.term].log[a.index].term == a.term
    ensures a.term in g.reign && 0 <= a.index < |g.reign[a.term].log|
    ensures h.log[a.server][a.index] == g.reign[a.term].log[a.index]
    ensures g.reign[a.term].log[a.index].index == a.index
  {
    ReignGood(g, a.term);
  }

  /**
    Commit is backed by a majority: when a leader raises its commit index, more than half of the
    servers have each held the entry at that index, an entry of the leader's term, at some moment of
    the run up to then while in that term.
  */
  lemma CommitBackedByMajority(n: nat, states: seq<Cluster>, steps: seq<Step>, k: int, i: int) returns (e: Entry, q: set<int>)
    requires IsRun(n, states, steps) && 0 <= k < |steps| && steps[k].TakeAppend? && i == Actor(steps[k])
    requires 0 <= i < |states[k].nodes| && i < |states[k + 1].nodes|
    requires states[k + 1].nodes[i].commitIndex > states[k].nodes[i].commitIndex
    ensures e.index == states[k + 1].nodes[i].commitIndex && e.term == states[k + 1].nodes[i].term
    ensures Held(states[k + 1], i, e)
    ensures Majority(n, q) && i in q
    ensures forall v | v in q :: HeldBy(states, k, v, e)
  {
    hide Inv, Grows, HeldIn, Perform, Enabled, Sound, SelfAcks, NodeOk, Held;
    var s, a := states[k], steps[k].appendAnswer;
    RunKeeps(n, states, steps, k);
    RunKeeps(n, states, steps, k + 1);
    assert Next(states[k], steps[k], states[k + 1]);
    TakesAppend(s, a);
    CommitIsChosen(s, a);
    InvNode(s, i);
    var t, c := states[k + 1].nodes[i].term, states[k + 1].nodes[i].commitIndex;
    e := s.past.reign[t].log[c];
    q := Ackers(s.past, t, c);
    ReignIndexed(s.past, t, c);
    LeaderAcked(s.past, t, c);
    LeaderHolds(states[k + 1], i, e);
    forall v | v in q ensures HeldBy(states, k, v, e) {
      AckerHeld(n, states, steps, k, v, t, c);
    }
  }

  lemma TakesAppend(s: Cluster, a: AppendAnswer)
    requires Enabled(s, TakeAppend(a)) && HasPast(s, a.call.args.leader)
    ensures Perform(s, TakeAppend(a)) == DoTakeAppend(s, a)
  {
  }

  lemma ReignIndexed(h: History, t: int, c: int)
    requires Sound(h) && t in h.reign && 0 <= c < |h.reign[t].log|
    ensures h.reign[t].log[c].index == c && t >= 0
  {
    assert GoodReign(h, t);
  }

  lemma LeaderAcked(h: History, t: int, c: int)
    requires SelfAcks(h) && Chosen(h, t, c) && t > 0
    ensures h.reign[t].leader in Ackers(h, t, c)
  {
    assert Ack(h.reign[t].leader, t, c) in h.acks;
  }

  lemma LeaderHolds(s: Cluster, i: int, e: Entry)
    requires Sized(s.past) && 0 <= i < |s.past.log| && s.past.term[i] == e.term
    requires 0 <= e.index < |s.past.log[i]| && s.past.log[i][e.index] == e
    ensures Held(s, i, e)
  {
  }

  lemma AckerHeld(n: nat, states: seq<Cluster>, steps: seq<Step>, k: int, v: int, t: int, c: int)
    requires IsRun(n, states, steps) && 0 <= k < |states| && v in Ackers(states[k].past, t, c)
    requires t in states[k].past.reign && 0 <= c < |states[k].past.reign[t].log| && states[k].past.reign[t].log[c].term == t
    ensures HeldBy(states, k, v, states[k].past.reign[t].log[c])
  {
    hide Inv, Grows, HeldIn, IsRun, Sound;
    var a, g, e := Ack(v, t, c), states[k].past, states[k].past.reign[t].log[c];
    AckWasHeld(n, states, steps, k, a);
    var m :| 0 <= m <= k && HeldIn(states[m].past, a);
    RunKeeps(n, states, steps, k);
    InvSized(states[k]);
    RunGrows(n, states, steps, m, k);
    HeldFirst(states[m].past, g, a);
    HeldMeans(states[m].past, g, a);
    HeldIs(states[m], a, e);
  }

  lemma HeldFirst(h: History, g: History, a: Ack)
    requires Grows(h, g) && HeldIn(h, a) && a.term in g.reign && a.index < |g.reign[a.term].log|
    ensures 0 <= a.index && h.reign[a.term].log[a.index] == g.reign[a.term].log[a.index]
  {
    ReignKept(h, g, a.term);
  }

  lemma HeldIs(s: Cluster, a: Ack, e: Entry)
    requires HeldIn(s.past, a) && s.past.log[a.server][a.index] == e && e.index == a.index && e.term == a.term
    ensures Held(s, a.server, e)
  {
  }

  // ----- a follower's commit ---------------------------------------------------------------

  /** A follower never commits past what it has just verified, although it takes the minimum with its own last index. */
  lemma FollowerCommitVerified(s: Cluster, call: AppendCall)
    requires Inv(s) && Enabled(s, DeliverAppend(call)) && HasPast(s, call.to)
    ensures var nd, nd' := s.nodes[call.to], DoDeliverAppend(s, call).nodes[call.to];
      && nd.commitIndex <= nd'.commitIndex <= Max(nd.commitIndex, call.args.prevIndex + |call.args.entries|)
      && (nd'.commitIndex > nd.commitIndex ==> AppendEntries(nd, call.args).1.success)
  {
    hide Inv, Sound, SelfAcks, NodeOk, AppendCallOk, AppendEntries, Passes, Appended, AcceptedLog, FromReign;
    var nd, args := s.nodes[call.to], call.args;
    InvNode(s, call.to);
    InvAppendCall(s, call);
    CallFromReign(s.past, s.rounds, call);
    LeaderCommitBound(s.past, call);
    if AppendEntries(nd, args).1.success {
      SuccessPasses(s.past, nd, call);
      var met := Meet(nd, args.term).(status := Follower);
      var r := Raise(s.past, call.to, met.term);
      PassesSized(r, met, call);
      PassesCommit(r, met, call);
      AppendedSame(met, AcceptedLog(r, call), args);
    } else {
      FailureKeeps(s.past, nd, call);
    }
  }

  lemma LeaderCommitBound(h: History, call: AppendCall)
    requires FromReign(h, call)
    ensures call.args.leaderCommit <= call.args.prevIndex + |call.args.entries|
  {
  }

  lemma PassesCommit(h: History, nd: Node, call: AppendCall)
    requires Passes(h, nd, call)
    ensures Sized(h) && 0 <= call.args.prevIndex < |h.log[call.to]|
    ensures nd.commitIndex < |AcceptedLog(h, call)| && 0 <= nd.snapIndex < |AcceptedLog(h, call)|
  {
    LastOfLog(nd, h.log[call.to]);
    MergedAt(h.log[call.to], call.args.prevIndex, call.args.entries);
  }
}
