/** Log replication keeps the invariant; its assertions never fail, except the one matchLog makes. */
module RaftReplicationSteps {
  import opened RaftLog
  import opened RaftHistory
  import opened RaftNode
  import opened RaftCluster
  import opened RaftInvariant
  import opened RaftElectionSteps

  // ----- Propose ---------------------------------------------------------------------------

  lemma StartOk(h: History, h': History, nd: Node, v: int, command: string)
    requires Sized(h) && Sized(h') && 0 <= v < |h.log| && NodeOk(h, nd, v) && nd.status == Leader
    requires Proposed(h, h', v) && h'.log[v] == h.log[v] + [Entry(|h.log[v]|, h.term[v], command)]
    ensures NodeOk(h', Start(nd, command).0, v)
  {
    Represented(nd, h.log[v]);
    var nd', log' := Start(nd, command).0, h'.log[v];
    assert nd'.logs == log'[nd'.snapIndex + 1..];
  }

  lemma ProposedTouches(h: History, h': History, c: int)
    requires Sized(h) && 0 <= c < |h.log| && Proposed(h, h', c)
    requires h.reign[h.term[c]].leader == c
    ensures OnlyTouches(h, h', c)
  {
  }

  lemma ProposedSelfAcks(h: History, h': History, c: int)
    requires SelfAcks(h) && Sized(h) && 0 <= c < |h.log| && Proposed(h, h', c)
    requires h.reign[h.term[c]].leader == c && h.reign[h.term[c]].log == h.log[c]
    ensures SelfAcks(h')
  {
    forall t, i | t in h'.reign && t > 0 && 0 <= i < |h'.reign[t].log| && h'.reign[t].log[i].term == t
      ensures Ack(h'.reign[t].leader, t, i) in h'.acks
    {
      if t == h.term[c] && i < |h.log[c]| {
        assert h.reign[t].log[i].term == t;
      }
    }
  }

  lemma ProposedInv(s: Cluster, s': Cluster, i: int)
    requires Inv(s) && 0 <= i < |s.nodes| == |s'.nodes| && |s'.stream| == |s.stream|
    requires Sized(s.past) && i < |s.past.log| && Proposed(s.past, s'.past, i)
    requires Sound(s'.past) && SelfAcks(s'.past) && Grows(s.past, s'.past) && OnlyTouches(s.past, s'.past, i)
    requires Sized(s'.past) && i < |s'.past.log| && NodeOk(s'.past, s'.nodes[i], i)
    requires s'.nodes == s.nodes[i := s'.nodes[i]] && s'.nodes[i].snapIndex == s.nodes[i].snapIndex
    requires s'.voteCalls == s.voteCalls && s'.voteAnswers == s.voteAnswers && s'.elections == s.elections
    requires s'.appendCalls == s.appendCalls && s'.appendAnswers == s.appendAnswers && s'.rounds == s.rounds
    requires s'.snapTasks == s.snapTasks && s'.snapCalls == s.snapCalls && s'.snapAnswers == s.snapAnswers
    ensures Inv(s')
  {
    hide Sound, SelfAcks, NodeOk, Grows, ReignGrows, ElectionsOk, ReplicationOk, SnapshotsOk;
    PastSized(s);
    NodesStay(s, s', i);
    SameElections(s, s');
    SameReplication(s, s');
    SameSnapshots(s, s', i);
  }

  lemma LeaderProposes(h: History, nd: Node, i: int, command: string)
    requires Sound(h) && SelfAcks(h) && 0 <= i < |h.log| && NodeOk(h, nd, i) && nd.status == Leader
    ensures h.term[i] in h.reign && h.reign[h.term[i]].log == h.log[i]
    ensures var h' := RaftHistory.Propose(h, i, command);
      && Sized(h) && Proposed(h, h', i) && Sound(h') && SelfAcks(h') && Grows(h, h') && OnlyTouches(h, h', i)
      && NodeOk(h', Start(nd, command).0, i)
  {
    assert Leads(h, i) && h.term[i] > 0 && h.term[i] in h.reign;
    hide Sound, SelfAcks, NodeOk, Grows, OnlyTouches, Proposed;
    var h' := RaftHistory.Propose(h, i, command);
    SoundSized(h);
    ProposeIs(h, i, command);
    ProposedSound(h, h', i);
    SoundSized(h');
    ProposedSelfAcks(h, h', i);
    ProposedTouches(h, h', i);
    StartOk(h, h', nd, i, command);
  }

  lemma ProposeInv(s: Cluster, i: int, command: string)
    requires Inv(s) && Up(s, i) && HasPast(s, i)
    ensures Inv(DoPropose(s, i, command)) && Grows(s.past, DoPropose(s, i, command).past)
    ensures DoPropose(s, i, command).nodes[i].alive
  {
    hide Inv, Sound, SelfAcks, NodeOk, Grows, OnlyTouches, Proposed, Enabled, RaftHistory.Propose;
    InvNode(s, i);
    if s.nodes[i].status == Leader {
      LeaderProposes(s.past, s.nodes[i], i, command);
      SoundSized(RaftHistory.Propose(s.past, i, command));
      GrowsSized(s.past, RaftHistory.Propose(s.past, i, command));
      ProposedInv(s, DoPropose(s, i, command), i);
    } else {
      NothingNew(s.past, i);
      assert s.nodes[i := s.nodes[i]] == s.nodes;
    }
  }

  // ----- HeartBeat -------------------------------------------------------------------------

  /** The entries above a slot are the log's, whatever the snapshot cut off. */
  lemma EntriesAbove(nd: Node, log: Log, next: int)
    requires Represents(nd, log) && nd.snapIndex < next <= |log|
    ensures 0 <= next - 1 - nd.snapIndex <= |nd.logs|
    ensures nd.logs[next - 1 - nd.snapIndex..] == log[next..]
  {
  }

  lemma HeartBeatIs(nd: Node, log: Log, v: int, j: int)
    requires Represents(nd, log) && 0 <= j < |nd.nextIndex| && 1 <= nd.nextIndex[j] <= |log|
    ensures HeartBeatTo(nd, v, j) == (
      var next := nd.nextIndex[j];
      if next <= nd.snapIndex then Outgoing.SendSnapshot
      else Append(AppendArgs(nd.term, v, next - 1, log[next - 1].term, log[next..], nd.commitIndex)))
  {
    hide KnowsTerm, TermAt, LastIndex, Represents;
    LastOfLog(nd, log);
    var next := nd.nextIndex[j];
    if next > nd.snapIndex {
      EntriesAbove(nd, log, next);
      TermOf(nd, log, next - 1);
    }
  }

  lemma StretchFrom(log: Log, next: int, args: AppendArgs)
    requires 1 <= next <= |log| && args.prevIndex == next - 1 && args.prevTerm == log[next - 1].term && args.entries == log[next..]
    ensures Stretch(log, args, |log| - 1)
  {
  }

  /** A leader's heartbeat never fails, and an append it sends is a stretch of its log up to its end. */
  lemma HeartBeatOk(h: History, nd: Node, v: int, j: int)
    requires Sized(h) && 0 <= v < |h.log| && NodeOk(h, nd, v) && nd.status == Leader
    requires 0 <= j < |h.log|
    ensures HasPeer(nd, j) && !HeartBeatTo(nd, v, j).Fails?
    ensures HeartBeatTo(nd, v, j).Append? ==>
      var args := HeartBeatTo(nd, v, j).args;
      && args.term == h.term[v] && args.leader == v && args.leaderCommit == nd.commitIndex <= LastIndex(nd)
      && Stretch(h.log[v], args, LastIndex(nd))
  {
    hide NodeOk, HeartBeatTo, Represents, LastIndex, Stretch;
    LeaderPeer(h, nd, v, j);
    HeartBeatIs(nd, h.log[v], v, j);
    if HeartBeatTo(nd, v, j).Append? {
      StretchFrom(h.log[v], nd.nextIndex[j], HeartBeatTo(nd, v, j).args);
    }
  }

  lemma LeaderPeer(h: History, nd: Node, v: int, j: int)
    requires Sized(h) && 0 <= v < |h.log| && NodeOk(h, nd, v) && nd.status == Leader && 0 <= j < |h.log|
    ensures HasPeer(nd, j) && 1 <= nd.nextIndex[j] <= |h.log[v]| && nd.matchIndex[j] <= LastIndex(nd)
    ensures Represents(nd, h.log[v]) && LastIndex(nd) == |h.log[v]| - 1 && nd.commitIndex <= LastIndex(nd) && nd.term == h.term[v]
  {
    Represented(nd, h.log[v]);
  }

  lemma NewRoundOk(h: History, nd: Node, v: int)
    requires Sized(h) && 0 <= v < |h.log| && NodeOk(h, nd, v) && nd.status == Leader
    ensures RoundOk(h, Round(v, nd.term, LastIndex(nd), NO_VOTES))
  {
    Represented(nd, h.log[v]);
  }

  /** What a heartbeat adds. */
  ghost predicate Beat(s: Cluster, s': Cluster, i: int)
    requires 0 <= i < |s.nodes|
  {
    var nd := s.nodes[i];
    && s'.past == s.past && s'.nodes == s.nodes && |s'.stream| == |s.stream|
    && s'.rounds == s.rounds + [Round(i, nd.term, LastIndex(nd), NO_VOTES)]
    && (forall c | c in s'.appendCalls && c !in s.appendCalls ::
          && 0 <= c.to < |s.nodes| && c.to != i && c.round == |s.rounds|
          && Answers(nd, i, c.to) && c.args == HeartBeatTo(nd, i, c.to).args)
    && (forall t | t in s'.snapTasks && t !in s.snapTasks :: t.from == i && 0 <= t.to < |s.nodes|)
    && s'.voteCalls == s.voteCalls && s'.voteAnswers == s.voteAnswers && s'.elections == s.elections
    && s'.appendAnswers == s.appendAnswers
    && s'.snapCalls == s.snapCalls && s'.snapAnswers == s.snapAnswers
  }

  lemma BeatCallOk(h: History, nd: Node, v: int, rounds: seq<Round>, c: AppendCall)
    requires Sized(h) && 0 <= v < |h.log| && NodeOk(h, nd, v) && nd.status == Leader
    requires 0 <= c.to < |h.log| && c.to != v && 0 <= c.round < |rounds|
    requires rounds[c.round] == Round(v, nd.term, LastIndex(nd), NO_VOTES)
    requires Answers(nd, v, c.to) && c.args == HeartBeatTo(nd, v, c.to).args
    ensures AppendCallOk(h, rounds, c)
  {
    HeartBeatOk(h, nd, v, c.to);
    hide Answers, HeartBeatTo, Stretch, Represents, IndexSpace, VoteKnown;
  }

  lemma BeatReplication(s: Cluster, s': Cluster, i: int)
    requires PastOk(s) && PastOk(s') && ReplicationOk(s) && 0 <= i < |s.nodes| && Beat(s, s', i)
    requires Sized(s.past) && i < |s.past.log| && NodeOk(s.past, s.nodes[i], i) && s.nodes[i].status == Leader
    ensures ReplicationOk(s')
  {
    hide Sound, SelfAcks, NodeOk, AppendCallOk, AppendAnswerOk, RoundOk, Answers, HeartBeatTo, LastIndex;
    assert Grows(s.past, s'.past);
    NewRoundOk(s.past, s.nodes[i], i);
    forall c | c in s'.appendCalls && c !in s.appendCalls ensures AppendCallOk(s'.past, s'.rounds, c) {
      BeatCallOk(s.past, s.nodes[i], i, s'.rounds, c);
    }
    ReplicationStays(s, s');
  }

  lemma BeatInv(s: Cluster, s': Cluster, i: int)
    requires Inv(s) && 0 <= i < |s.nodes| && Beat(s, s', i) && s.nodes[i].status == Leader
    ensures Inv(s')
  {
    hide Sound, SelfAcks, NodeOk, VoteCallOk, VoteAnswerOk, ElectionOk, ReplicationOk, Answers, HeartBeatTo, SnapCallOk, LastIndex;
    PastSized(s);
    assert NodeOk(s.past, s.nodes[i], i);
    BeatReplication(s, s', i);
  }

  lemma NobodyFails(h: History, nd: Node, n: nat, i: int)
    requires Sized(h) && 0 <= i < |h.log| == n && NodeOk(h, nd, i) && nd.status == Leader
    ensures forall j | j in Peers(n, i) :: Answers(nd, i, j) || NeedsSnapshot(nd, i, j)
  {
    hide NodeOk, HeartBeatTo;
    forall j | j in Peers(n, i) ensures Answers(nd, i, j) || NeedsSnapshot(nd, i, j) {
      HeartBeatOk(h, nd, i, j);
    }
  }

  lemma HeartBeatInv(s: Cluster, i: int)
    requires Inv(s) && Up(s, i) && HasPast(s, i)
    ensures Inv(DoHeartBeat(s, i))
    ensures DoHeartBeat(s, i).nodes[i].alive
  {
    hide Inv, NodeOk, HeartBeatTo, Answers, NeedsSnapshot, LastIndex;
    InvNode(s, i);
    if s.nodes[i].status == Leader {
      NobodyFails(s.past, s.nodes[i], |s.nodes|, i);
      BeatInv(s, DoHeartBeat(s, i), i);
    }
  }

  // ----- DeliverAppend ---------------------------------------------------------------------

  /** The entries of an AppendEntries cannot clash with the log of any server. */
  lemma NeverClashes(h: History, v: int, log: Log, args: AppendArgs, end: int)
    requires Sound(h) && 0 <= v < |h.log| && Sourced(h, log) && Shaped(log) && Stretch(log, args, end)
    ensures Consecutive(args.prevIndex, args.entries) && NoClash(h.log[v], args.prevIndex, args.entries)
  {
    assert GoodLog(h, v);
    forall k | 0 <= k < |args.entries| && args.prevIndex + 1 + k < |h.log[v]| && h.log[v][args.prevIndex + 1 + k].term == args.entries[k].term
      ensures h.log[v][args.prevIndex + 1 + k] == args.entries[k]
    {
      EntryUnique(h, h.log[v], log, args.prevIndex + 1 + k);
    }
  }

  /** Every position of the log comes from one of two others. */
  ghost predicate FromEither(log: Log, a: Log, b: Log) {
    forall i | 0 <= i < |log| :: (i < |a| && log[i] == a[i]) || (i < |b| && log[i] == b[i])
  }

  ghost predicate Good(h: History, log: Log, t: int) {
    Shaped(log) && Sourced(h, log) && TermsUpTo(log, t)
  }

  lemma EitherGood(h: History, log: Log, a: Log, b: Log, t: int)
    requires FromEither(log, a, b) && |log| > 0 && Good(h, a, t) && Good(h, b, t)
    ensures Good(h, log, t)
  {
  }

  lemma MergedFromEither(log: Log, lead: Log, args: AppendArgs, end: int)
    requires 0 <= args.prevIndex < |log| && Stretch(lead, args, end)
    ensures FromEither(Merged(log, args.prevIndex, args.entries), log, lead)
  {
    MergedAt(log, args.prevIndex, args.entries);
    var log' := Merged(log, args.prevIndex, args.entries);
    hide Merged;
    forall i | 0 <= i < |log'| ensures (i < |log| && log'[i] == log[i]) || (i < |lead| && log'[i] == lead[i]) {
      if args.prevIndex < i <= end {
        assert log'[i] == args.entries[i - args.prevIndex - 1];
      }
    }
  }

  /** The record after the merge and the commit update. */
  function Appended(nd: Node, log: Log, args: AppendArgs): Node
    requires 0 <= nd.snapIndex < |log|
  {
    var commit := if args.leaderCommit > nd.commitIndex then Min(args.leaderCommit, LastIndexOf(log)) else nd.commitIndex;
    nd.(logs := log[nd.snapIndex + 1..], commitIndex := commit)
  }

  lemma AppendedOk(nd: Node, log: Log, log': Log, args: AppendArgs, n: nat)
    requires Represents(nd, log) && IndexSpace(nd, n) && nd.status == Follower
    requires Shaped(log') && |log'| >= |log| && log'[nd.snapIndex] == log[nd.snapIndex]
    ensures Represents(Appended(nd, log', args), log') && IndexSpace(Appended(nd, log', args), n)
  {
    Represented(nd, log);
    Represented(Appended(nd, log', args), log');
  }

  /** Where the checks pass, the handler merges and answers success: nothing in it can fail. */
  lemma AppendMerges(nd: Node, log: Log, args: AppendArgs, n: nat)
    requires Represents(nd, log) && IndexSpace(nd, n) && nd.status == Follower && nd.term == args.term
    requires nd.snapIndex <= args.prevIndex < |log| && log[args.prevIndex].term == args.prevTerm
    requires Consecutive(args.prevIndex, args.entries) && NoClash(log, args.prevIndex, args.entries)
    requires Shaped(Merged(log, args.prevIndex, args.entries))
    ensures AppendEntries(nd, args) ==
      (Appended(nd, Merged(log, args.prevIndex, args.entries), args), AppendReply(nd.term, true, 0))
  {
    hide KnowsTerm, TermAt, LastIndex, Represents, IndexSpace, Merged, MergeEntries, NoClash, Consecutive, Shaped, Sourced;
    LastOfLog(nd, log);
    var log' := Merged(log, args.prevIndex, args.entries);
    MergedAt(log, args.prevIndex, args.entries);
    MergedEntries(nd, log, args);
    TermOf(nd, log, args.prevIndex);
    AppendedOk(nd, log, log', args, n);
    var nd' := Appended(nd, log', args);
    LastOfLog(nd', log');
    LastIndexKept(nd', nd.(logs := nd'.logs));
    CommitWithin(nd, n);
    assert Meet(nd, args.term).(status := Follower) == nd;
  }

  lemma CommitWithin(nd: Node, n: nat)
    requires IndexSpace(nd, n)
    ensures nd.commitIndex <= LastIndex(nd)
  {
  }

  lemma MergedEntries(nd: Node, log: Log, args: AppendArgs)
    requires Represents(nd, log) && nd.snapIndex <= args.prevIndex < |log|
    requires Consecutive(args.prevIndex, args.entries) && NoClash(log, args.prevIndex, args.entries)
    ensures nd.snapIndex + 1 <= |Merged(log, args.prevIndex, args.entries)|
    ensures MergeEntries(nd.logs, nd.snapIndex, args.entries) ==
      Some(Merged(log, args.prevIndex, args.entries)[nd.snapIndex + 1..])
  {
    MergeEntriesIsMerged(nd.logs, nd.snapIndex, log, args.prevIndex, args.entries);
  }

  /** What an AppendEntries makes of the server and the history, and what it answers. */
  ghost predicate AppendTaken(h: History, h': History, nd': Node, call: AppendCall, reply: AppendReply)
    requires Sized(h) && 0 <= call.to < |h.log|
  {
    var args := call.args;
    && Sound(h') && Grows(h, h') && OnlyTouches(h, h', call.to)
    && h'.reign == h.reign && h'.candidacy == h.candidacy && h.acks <= h'.acks
    && NodeOk(h', nd', call.to)
    && (nd'.alive ==>
          && reply.term >= args.term
          && (reply.success ==> reply.term == args.term && Ack(call.to, args.term, args.prevIndex + |args.entries|) in h'.acks)
          && (!reply.success && reply.term == args.term ==> 1 <= reply.updateNextIndex <= args.prevIndex)
          && (reply.term > args.term ==> reply.updateNextIndex == STALE_TERM))
  }

  /** The call, as its receiver sees it once it is in the call's term. */
  ghost predicate FromReign(h: History, call: AppendCall) {
    var args := call.args;
    && args.term > 0 && args.term in h.reign && call.to != h.reign[args.term].leader
    && Stretch(h.reign[args.term].log, args, args.prevIndex + |args.entries|)
    && args.leaderCommit <= args.prevIndex + |args.entries|
  }

  lemma CallFromReign(h: History, rounds: seq<Round>, call: AppendCall)
    requires Sized(h) && AppendCallOk(h, rounds, call)
    ensures FromReign(h, call)
  {
  }

  function AcceptedLog(h: History, call: AppendCall): Log
    requires 0 <= call.to < |h.log| && 0 <= call.args.prevIndex < |h.log[call.to]|
  {
    Merged(h.log[call.to], call.args.prevIndex, call.args.entries)
  }

  function Accepted(h: History, call: AppendCall): History
    requires Sized(h) && 0 <= call.to < |h.log| && 0 <= call.args.prevIndex < |h.log[call.to]|
  {
    Accept(h, call.to, AcceptedLog(h, call), call.args.prevIndex + |call.args.entries|)
  }

  /** A call that passes the term and the previous-entry checks of a server in the call's term. */
  ghost predicate Passes(h: History, nd: Node, call: AppendCall) {
    && Sound(h) && 0 <= call.to < |h.log| && NodeOk(h, nd, call.to)
    && nd.status == Follower && nd.term == call.args.term && FromReign(h, call)
    && 0 <= nd.snapIndex <= call.args.prevIndex < |h.log[call.to]|
    && h.log[call.to][call.args.prevIndex].term == call.args.prevTerm
  }

  lemma AcceptedGood(h: History, nd: Node, call: AppendCall)
    requires Passes(h, nd, call)
    ensures Good(h, AcceptedLog(h, call), h.term[call.to])
    ensures Consecutive(call.args.prevIndex, call.args.entries) && NoClash(h.log[call.to], call.args.prevIndex, call.args.entries)
  {
    var v, args, lead := call.to, call.args, h.reign[call.args.term].log;
    var end := args.prevIndex + |args.entries|;
    assert GoodReign(h, args.term) && GoodLog(h, v);
    assert Good(h, h.log[v], h.term[v]) && Good(h, lead, h.term[v]);
    NeverClashes(h, v, lead, args, end);
    MergedFromEither(h.log[v], lead, args, end);
    MergedAt(h.log[v], args.prevIndex, args.entries);
    hide *;
    EitherGood(h, AcceptedLog(h, call), h.log[v], lead, h.term[v]);
  }

  lemma AcceptTouches(h: History, v: int, log: Log, index: int)
    requires Sized(h) && 0 <= v < |h.log|
    ensures OnlyTouches(h, Accept(h, v, log, index), v)
  {
  }

  lemma PassesSized(h: History, nd: Node, call: AppendCall)
    requires Passes(h, nd, call)
    ensures Sized(h) && Sound(h) && 0 <= call.to < |h.log| && h.term[call.to] == nd.term == call.args.term
    ensures 0 <= nd.snapIndex <= call.args.prevIndex < |h.log[call.to]|
    ensures nd.term in h.reign && call.args.prevIndex + |call.args.entries| < |h.reign[nd.term].log|
  {
  }

  lemma AcceptKeeps(h: History, v: int, log: Log, index: int)
    requires Sound(h) && Sized(h) && 0 <= v < |h.log| && Good(h, log, h.term[v])
    requires h.term[v] in h.reign && 0 <= index < |h.reign[h.term[v]].log|
    ensures var h' := Accept(h, v, log, index);
      && Sound(h') && Grows(h, h') && OnlyTouches(h, h', v)
  {
    hide Sound, Grows, OnlyTouches, Shaped, Sourced, TermsUpTo;
    AcceptSound(h, v, log, index);
    AcceptTouches(h, v, log, index);
  }

  lemma AcceptedPast(h: History, nd: Node, call: AppendCall)
    requires Passes(h, nd, call) && Good(h, AcceptedLog(h, call), h.term[call.to])
    ensures var h' := Accepted(h, call);
      && Sound(h') && Grows(h, h') && OnlyTouches(h, h', call.to)
      && h'.reign == h.reign && h'.candidacy == h.candidacy && h.acks <= h'.acks
      && Ack(call.to, call.args.term, call.args.prevIndex + |call.args.entries|) in h'.acks
  {
    hide Passes, Sound, Grows, OnlyTouches, AcceptedLog, Good;
    PassesSized(h, nd, call);
    AcceptKeeps(h, call.to, AcceptedLog(h, call), call.args.prevIndex + |call.args.entries|);
  }

  lemma AcceptedNode(h: History, nd: Node, call: AppendCall)
    requires Passes(h, nd, call) && Good(h, AcceptedLog(h, call), h.term[call.to])
    ensures Sized(h) && Sized(Accepted(h, call)) && |Accepted(h, call).log| == |h.log|
    ensures 0 <= nd.snapIndex < |AcceptedLog(h, call)|
    ensures NodeOk(Accepted(h, call), Appended(nd, AcceptedLog(h, call), call.args), call.to)
  {
    var v, log := call.to, AcceptedLog(h, call);
    MergedAt(h.log[v], call.args.prevIndex, call.args.entries);
    hide Merged, AcceptedLog, Sound;
    AppendedOk(nd, h.log[v], log, call.args, |h.log|);
    hide Represents, IndexSpace, Sourced, TermsUpTo;
  }

  lemma AcceptedAnswer(h: History, nd: Node, call: AppendCall)
    requires Passes(h, nd, call) && Good(h, AcceptedLog(h, call), h.term[call.to])
    requires Consecutive(call.args.prevIndex, call.args.entries) && NoClash(h.log[call.to], call.args.prevIndex, call.args.entries)
    requires 0 <= nd.snapIndex < |AcceptedLog(h, call)|
    ensures AppendEntries(nd, call.args) == (Appended(nd, AcceptedLog(h, call), call.args), AppendReply(nd.term, true, 0))
  {
    hide Merged, Sound, Sourced, TermsUpTo, AppendEntries, NoClash, Consecutive, Represents, IndexSpace;
    AppendMerges(nd, h.log[call.to], call.args, |h.log|);
  }

  lemma AcceptOk(h: History, nd: Node, call: AppendCall)
    requires Passes(h, nd, call)
    ensures AppendEntries(nd, call.args).1 == AppendReply(nd.term, true, 0)
    ensures var nd' := AppendEntries(nd, call.args).0;
      && nd' == Appended(nd, AcceptedLog(h, call), call.args)
      && AppendTaken(h, Accepted(h, call), nd', call, AppendReply(nd.term, true, 0))
  {
    hide Sound, Grows, NodeOk, OnlyTouches, AppendEntries, NoClash, Consecutive, AcceptedLog, Appended, FromReign, Accepted, Good, Passes;
    PassesSized(h, nd, call);
    AcceptedGood(h, nd, call);
    AcceptedPast(h, nd, call);
    AcceptedNode(h, nd, call);
    AcceptedAnswer(h, nd, call);
  }

  /** Every log starts with the same entry, so a mismatch is above it. */
  lemma MismatchAboveOrigin(h: History, nd: Node, call: AppendCall)
    requires Sound(h) && 0 <= call.to < |h.log| && NodeOk(h, nd, call.to) && FromReign(h, call)
    requires var p := call.args.prevIndex;
      p >= |h.log[call.to]| || (nd.snapIndex <= p && h.log[call.to][p].term != call.args.prevTerm)
    ensures call.args.prevIndex > 0 && Represents(nd, h.log[call.to])
  {
    assert GoodLog(h, call.to) && GoodReign(h, call.args.term);
  }

  /** The two rejections that answer: the log is too short, or the previous entry is of another term. */
  lemma RejectOk(h: History, nd: Node, call: AppendCall)
    requires Sound(h) && 0 <= call.to < |h.log| && NodeOk(h, nd, call.to)
    requires nd.status == Follower && nd.term == call.args.term && FromReign(h, call)
    requires var p := call.args.prevIndex;
      p >= |h.log[call.to]| || (nd.snapIndex <= p && h.log[call.to][p].term != call.args.prevTerm)
    ensures var (nd', reply) := AppendEntries(nd, call.args);
      nd' == nd && !reply.success && reply.term == nd.term && 1 <= reply.updateNextIndex <= call.args.prevIndex
  {
    hide Sound, NodeOk, FromReign, KnowsTerm, TermAt, LastIndex, Represents, BackOff;
    var v, p := call.to, call.args.prevIndex;
    MismatchAboveOrigin(h, nd, call);
    LastOfLog(nd, h.log[v]);
    assert Meet(nd, call.args.term).(status := Follower) == nd;
    if p < |h.log[v]| {
      TermOf(nd, h.log[v], p);
      BackOffExact(nd, h.log[v], p, p);
    }
  }

  /** A previous index below the snapshot reaches matchLog's assertion: the process exits. */
  lemma StaleAppendExits(h: History, nd: Node, call: AppendCall)
    requires Sized(h) && 0 <= call.to < |h.log| && NodeOk(h, nd, call.to)
    requires nd.status == Follower && nd.term == call.args.term && call.args.prevIndex < nd.snapIndex
    ensures AppendEntries(nd, call.args) == (Exit(nd), Reject(nd, nd.snapIndex + 1))
  {
    Represented(nd, h.log[call.to]);
    assert Meet(nd, call.args.term).(status := Follower) == nd;
  }

  lemma AppendMeets(nd: Node, args: AppendArgs)
    requires args.term >= nd.term
    ensures AppendEntries(nd, args) == AppendEntries(Meet(nd, args.term).(status := Follower), args)
  {
  }

  lemma AppendTakenAfter(h: History, r: History, h': History, nd': Node, call: AppendCall, reply: AppendReply)
    requires Sized(h) && Sized(r) && 0 <= call.to < |h.log| == |r.log|
    requires Grows(h, r) && OnlyTouches(h, r, call.to) && r.reign == h.reign && r.candidacy == h.candidacy && r.acks == h.acks
    requires AppendTaken(r, h', nd', call, reply)
    ensures AppendTaken(h, h', nd', call, reply)
  {
    hide Sound, Grows, NodeOk;
    GrowsTransitive(h, r, h');
  }

  lemma AppendMet(h: History, nd: Node, call: AppendCall)
    requires Sound(h) && 0 <= call.to < |h.log| && NodeOk(h, nd, call.to) && FromReign(h, call)
    requires call.args.term >= nd.term
    ensures var met := Meet(nd, call.args.term).(status := Follower);
      var r := Raise(h, call.to, met.term);
      && Sound(r) && Grows(h, r) && OnlyTouches(h, r, call.to) && NodeOk(r, met, call.to) && FromReign(r, call)
      && met.term == call.args.term
  {
    MeetOk(h, nd, call.to, call.args.term);
    StepDownOk(Raise(h, call.to, Meet(nd, call.args.term).term), Meet(nd, call.args.term), call.to);
  }

  /** What an AppendEntries comes to: the invariant's part, and when the process exits. */
  ghost predicate AppendOutcome(h: History, nd: Node, call: AppendCall)
    requires Sized(h) && 0 <= call.to < |h.log|
  {
    var (nd', reply) := AppendEntries(nd, call.args);
    && nd'.snapIndex == nd.snapIndex
    && AppendTaken(h, PastOfAppend(h, call.to, nd', call, reply.success), nd', call, reply)
    && (nd.alive ==> (!nd'.alive <==> call.args.term >= nd.term && call.args.prevIndex < nd.snapIndex))
  }

  lemma SamePast(h: History, nd: Node, call: AppendCall)
    requires Sized(h) && 0 <= call.to < |h.log| && nd.term == h.term[call.to]
    ensures PastOfAppend(h, call.to, nd, call, false) == h
    ensures Grows(h, h) && OnlyTouches(h, h, call.to)
  {
    assert h.term[call.to := nd.term] == h.term;
  }

  lemma ExitOutcome(h: History, nd: Node, call: AppendCall)
    requires Sound(h) && 0 <= call.to < |h.log| && NodeOk(h, nd, call.to) && FromReign(h, call)
    requires nd.status == Follower && nd.term == call.args.term && call.args.prevIndex < nd.snapIndex
    ensures AppendOutcome(h, nd, call)
  {
    hide Sound, Grows, OnlyTouches, AppendEntries, FromReign, PastOfAppend;
    SoundSized(h);
    StaleAppendExits(h, nd, call);
    SamePast(h, Exit(nd), call);
  }

  lemma AcceptOutcome(h: History, nd: Node, call: AppendCall)
    requires Passes(h, nd, call)
    ensures Sized(h) && AppendOutcome(h, nd, call)
  {
    AcceptOk(h, nd, call);
    AcceptedPastIs(h, nd, call);
    assert Sized(h) && h.term[call.to] == nd.term;
    hide AppendTaken, AppendEntries, FromReign, Passes, AcceptedLog, PastOfAppend;
  }

  lemma AcceptedPastIs(h: History, nd: Node, call: AppendCall)
    requires Passes(h, nd, call)
    ensures PastOfAppend(h, call.to, Appended(nd, AcceptedLog(h, call), call.args), call, true) == Accepted(h, call)
  {
    assert h.term[call.to := nd.term] == h.term;
    hide Merged, Sound, FromReign;
  }

  lemma RejectOutcome(h: History, nd: Node, call: AppendCall)
    requires Sound(h) && 0 <= call.to < |h.log| && NodeOk(h, nd, call.to) && FromReign(h, call)
    requires nd.status == Follower && nd.term == call.args.term && 0 <= nd.snapIndex <= call.args.prevIndex
    requires call.args.prevIndex < |h.log[call.to]| ==> h.log[call.to][call.args.prevIndex].term != call.args.prevTerm
    ensures AppendOutcome(h, nd, call)
  {
    hide Sound, Grows, OnlyTouches, Represents, IndexSpace, AppendEntries, FromReign, PastOfAppend;
    SoundSized(h);
    RejectOk(h, nd, call);
    SamePast(h, nd, call);
  }

  /** In the call's term: accepted, rejected with an answer, or the exit of a stale previous index. */
  lemma AppendInTerm(h: History, nd: Node, call: AppendCall)
    requires Sound(h) && 0 <= call.to < |h.log| && NodeOk(h, nd, call.to)
    requires nd.status == Follower && nd.term == call.args.term && FromReign(h, call)
    ensures AppendOutcome(h, nd, call)
  {
    var v, p := call.to, call.args.prevIndex;
    assert 0 <= nd.snapIndex && 0 <= p && h.term[v] == nd.term;
    hide Sound, NodeOk, FromReign, AppendOutcome;
    if p < nd.snapIndex {
      ExitOutcome(h, nd, call);
    } else if p < |h.log[v]| && h.log[v][p].term == call.args.prevTerm {
      AcceptOutcome(h, nd, call);
    } else {
      RejectOutcome(h, nd, call);
    }
  }

  lemma StaleOutcome(h: History, nd: Node, call: AppendCall)
    requires Sound(h) && 0 <= call.to < |h.log| && NodeOk(h, nd, call.to) && FromReign(h, call)
    requires call.args.term < nd.term
    ensures AppendOutcome(h, nd, call)
  {
    hide Sound, Grows, OnlyTouches, Represents, IndexSpace, FromReign, PastOfAppend;
    SoundSized(h);
    SamePast(h, nd, call);
  }

  lemma AppendOk(h: History, nd: Node, call: AppendCall)
    requires Sound(h) && 0 <= call.to < |h.log| && NodeOk(h, nd, call.to) && FromReign(h, call)
    ensures AppendOutcome(h, nd, call)
  {
    hide Sound, NodeOk, FromReign, AppendOutcome, Grows, OnlyTouches;
    if call.args.term < nd.term {
      StaleOutcome(h, nd, call);
    } else {
      var met := Meet(nd, call.args.term).(status := Follower);
      AppendMet(h, nd, call);
      AppendInTerm(Raise(h, call.to, met.term), met, call);
      OutcomeMet(h, nd, call);
    }
  }

  /** Adopting the call's term first makes no difference to what the handler comes to. */
  lemma OutcomeMet(h: History, nd: Node, call: AppendCall)
    requires Sized(h) && 0 <= call.to < |h.log| && call.args.term >= nd.term
    requires var met := Meet(nd, call.args.term).(status := Follower);
      var r := Raise(h, call.to, met.term);
      && met.term == call.args.term && Grows(h, r) && OnlyTouches(h, r, call.to) && AppendOutcome(r, met, call)
    ensures AppendOutcome(h, nd, call)
  {
    hide Grows, OnlyTouches, AppendEntries, AppendTaken, Accept, Merged;
    var met := Meet(nd, call.args.term).(status := Follower);
    var r := Raise(h, call.to, met.term);
    AppendMeets(nd, call.args);
    var (nd', reply) := AppendEntries(nd, call.args);
    assert r.term[call.to := nd'.term] == h.term[call.to := nd'.term];
    AppendTakenAfter(h, r, PastOfAppend(r, call.to, nd', call, reply.success), nd', call, reply);
  }

  lemma InvAppendCall(s: Cluster, call: AppendCall)
    requires Inv(s) && call in s.appendCalls
    ensures Sized(s.past) && AppendCallOk(s.past, s.rounds, call) && 0 <= call.to < |s.past.log|
  {
  }

  lemma TakenAnswer(h: History, h': History, rounds: seq<Round>, nd': Node, call: AppendCall, reply: AppendReply)
    requires Sized(h) && 0 <= call.to < |h.log| && Sized(h') && AppendCallOk(h, rounds, call)
    requires AppendTaken(h, h', nd', call, reply)
    ensures Grows(h, h')
    ensures nd'.alive ==> AppendAnswerOk(h', rounds, AppendAnswer(call, reply))
  {
    hide Sound, Grows, OnlyTouches, NodeOk, AppendCallOk, Sized;
    AppendCallStays(h, h', rounds, rounds, call);
  }

  lemma AppendTakenReplication(s: Cluster, s': Cluster, call: AppendCall, reply: AppendReply)
    requires PastOk(s) && PastOk(s') && ReplicationOk(s) && Sized(s.past) && Sized(s'.past) && 0 <= call.to < |s.nodes| == |s'.nodes|
    requires call.to < |s.past.log| && AppendTaken(s.past, s'.past, s'.nodes[call.to], call, reply) && call in s.appendCalls
    requires s'.appendCalls == s.appendCalls && s'.rounds == s.rounds
    requires s'.appendAnswers == if s'.nodes[call.to].alive then s.appendAnswers + {AppendAnswer(call, reply)} else s.appendAnswers
    ensures ReplicationOk(s')
  {
    hide PastOk, Grows, AppendCallOk, AppendAnswerOk, RoundOk, AppendTaken;
    TakenAnswer(s.past, s'.past, s.rounds, s'.nodes[call.to], call, reply);
    ReplicationStays(s, s');
  }

  lemma AppendTakenPast(s: Cluster, s': Cluster, call: AppendCall, reply: AppendReply)
    requires Inv(s) && call in s.appendCalls && 0 <= call.to < |s.nodes| == |s'.nodes| && |s'.stream| == |s.stream|
    requires AppendTaken(s.past, s'.past, s'.nodes[call.to], call, reply)
    requires s'.nodes == s.nodes[call.to := s'.nodes[call.to]]
    ensures PastOk(s') && Grows(s.past, s'.past) && NodesOk(s')
    ensures s'.past.reign == s.past.reign && s'.past.candidacy == s.past.candidacy
  {
    SelfAcksStay(s.past, s'.past);
    hide Sound, SelfAcks, NodeOk, Grows, OnlyTouches, ElectionsOk, ReplicationOk, SnapshotsOk;
    PastSized(s);
    SoundSized(s'.past);
    GrowsSized(s.past, s'.past);
    NodesStay(s, s', call.to);
  }

  lemma AppendTakenInv(s: Cluster, s': Cluster, call: AppendCall, reply: AppendReply)
    requires Inv(s) && call in s.appendCalls && 0 <= call.to < |s.nodes| == |s'.nodes| && |s'.stream| == |s.stream|
    requires AppendTaken(s.past, s'.past, s'.nodes[call.to], call, reply)
    requires s'.nodes == s.nodes[call.to := s'.nodes[call.to]]
    requires s'.nodes[call.to].snapIndex == s.nodes[call.to].snapIndex
    requires s'.appendCalls == s.appendCalls && s'.rounds == s.rounds
    requires s'.appendAnswers == if s'.nodes[call.to].alive then s.appendAnswers + {AppendAnswer(call, reply)} else s.appendAnswers
    requires s'.voteCalls == s.voteCalls && s'.voteAnswers == s.voteAnswers && s'.elections == s.elections
    requires s'.snapTasks == s.snapTasks && s'.snapCalls == s.snapCalls && s'.snapAnswers == s.snapAnswers
    ensures Inv(s') && Grows(s.past, s'.past)
  {
    hide PastOk, NodesOk, ElectionsOk, ReplicationOk, SnapshotsOk, Grows, AppendTaken;
    InvAppendCall(s, call);
    AppendTakenPast(s, s', call, reply);
    PastSized(s');
    AppendTakenReplication(s, s', call, reply);
    SameElections(s, s');
    SameSnapshots(s, s', call.to);
  }

  /** The one exit a run can reach: a previous index below the receiver's snapshot, in a current term. */
  lemma DeliverAppendInv(s: Cluster, call: AppendCall)
    requires Inv(s) && Enabled(s, DeliverAppend(call)) && HasPast(s, call.to)
    ensures Inv(DoDeliverAppend(s, call)) && Grows(s.past, DoDeliverAppend(s, call).past)
    ensures !DoDeliverAppend(s, call).nodes[call.to].alive <==>
      call.args.term >= s.nodes[call.to].term && call.args.prevIndex < s.nodes[call.to].snapIndex
  {
    hide Inv, Sound, SelfAcks, NodeOk, AppendCallOk, FromReign, AppendTaken, AppendEntries, PastOfAppend, Grows;
    InvNode(s, call.to);
    InvAppendCall(s, call);
    CallFromReign(s.past, s.rounds, call);
    AppendOk(s.past, s.nodes[call.to], call);
    AppendTakenInv(s, DoDeliverAppend(s, call), call, AppendEntries(s.nodes[call.to], call.args).1);
  }

  // ----- TakeAppend ------------------------------------------------------------------------

  /** The leader's round and record as an answer of the round reaches it. */
  ghost predicate CanTakeAppend(h: History, nd: Node, rounds: seq<Round>, a: AppendAnswer) {
    var i := a.call.args.leader;
    && Sound(h) && SelfAcks(h) && 0 <= i < |h.log| && NodeOk(h, nd, i) && nd.alive
    && AppendAnswerOk(h, rounds, a) && HasPeer(nd, a.call.to)
    && RoundOk(h, rounds[a.call.round]) && a.call.to !in rounds[a.call.round].tally.done
  }

  predicate CountsIn(nd: Node, reply: AppendReply) {
    reply.term == nd.term && nd.status == Leader && reply.success
  }

  lemma CanTakeFacts(h: History, nd: Node, rounds: seq<Round>, a: AppendAnswer)
    requires CanTakeAppend(h, nd, rounds, a)
    ensures Sized(h) && Sound(h) && 0 <= a.call.args.leader < |h.log| && NodeOk(h, nd, a.call.args.leader) && nd.alive
    ensures AppendAnswerOk(h, rounds, a) && HasPeer(nd, a.call.to) && 0 <= a.call.round < |rounds|
    ensures RoundOk(h, rounds[a.call.round]) && a.call.to !in rounds[a.call.round].tally.done
    ensures nd.term == h.term[a.call.args.leader]
  {
  }

  lemma LeaderLog(h: History, nd: Node, v: int)
    requires Sized(h) && 0 <= v < |h.log| && NodeOk(h, nd, v) && nd.status == Leader
    ensures nd.term in h.reign && h.reign[nd.term].log == h.log[v] && h.reign[nd.term].leader == v
    ensures LastIndex(nd) == |h.log[v]| - 1
  {
    Represented(nd, h.log[v]);
  }

  /** An answer of the caller's current term is about a call of that term. */
  lemma AnswerOfTerm(h: History, rounds: seq<Round>, a: AppendAnswer)
    requires Sized(h) && AppendAnswerOk(h, rounds, a) && (a.reply.success || a.reply.updateNextIndex != STALE_TERM)
    ensures 0 <= a.call.round < |rounds|
    ensures var args, r := a.call.args, rounds[a.call.round];
      && args.term == a.reply.term == r.term && args.leader == r.leader
      && r.term in h.reign && Stretch(h.reign[r.term].log, args, r.end)
      && (!a.reply.success ==> 1 <= a.reply.updateNextIndex <= args.prevIndex)
      && (a.reply.success ==> Ack(a.call.to, args.term, r.end) in h.acks)
  {
  }

  lemma StretchEnd(log: Log, args: AppendArgs, end: int)
    requires Stretch(log, args, end)
    ensures 0 <= args.prevIndex <= args.prevIndex + |args.entries| == end < |log|
    ensures |args.entries| > 0 ==> args.entries[|args.entries| - 1] == log[end]
  {
  }

  /** What an answer that neither deposes nor is stale can say to the leader of its term. */
  lemma AnswerToLeader(h: History, nd: Node, rounds: seq<Round>, a: AppendAnswer)
    requires CanTakeAppend(h, nd, rounds, a) && a.reply.term == nd.term && nd.status == Leader
    requires a.reply.success || a.reply.updateNextIndex != STALE_TERM
    ensures var v, args := a.call.args.leader, a.call.args;
      && 0 <= v < |h.log| && 0 <= a.call.round < |rounds|
      && args.term == nd.term && nd.term in h.reign && h.reign[nd.term].log == h.log[v] && h.reign[nd.term].leader == v
      && 0 <= args.prevIndex <= args.prevIndex + |args.entries| == rounds[a.call.round].end <= LastIndex(nd) == |h.log[v]| - 1
      && (|args.entries| > 0 ==> args.entries[|args.entries| - 1] == h.log[v][rounds[a.call.round].end])
      && (!a.reply.success ==> 1 <= a.reply.updateNextIndex <= LastIndex(nd))
  {
    hide CanTakeAppend, Sound, NodeOk, AppendAnswerOk, RoundOk, LastIndex, Stretch;
    CanTakeFacts(h, nd, rounds, a);
    LeaderLog(h, nd, a.call.args.leader);
    AnswerOfTerm(h, rounds, a);
    StretchEnd(h.reign[nd.term].log, a.call.args, rounds[a.call.round].end);
  }

  /** The record with one peer's indices, and perhaps the commit index, moved within the log. */
  lemma IndicesOk(h: History, nd: Node, v: int, j: int, next: int, matched: int, commit: int)
    requires Sized(h) && 0 <= v < |h.log| && NodeOk(h, nd, v) && HasPeer(nd, j)
    requires 1 <= next <= LastIndex(nd) + 1 && matched <= LastIndex(nd) && nd.commitIndex <= commit <= LastIndex(nd)
    ensures NodeOk(h, nd.(nextIndex := nd.nextIndex[j := next], matchIndex := nd.matchIndex[j := matched], commitIndex := commit), v)
  {
  }

  /** What taking in an answer makes of a server: at most its term is raised. */
  ghost predicate TakenIn(h: History, nd: Node, nd': Node, v: int)
    requires Sized(h) && 0 <= v < |h.log|
  {
    var h' := Raise(h, v, nd'.term);
    && Sound(h') && Grows(h, h') && OnlyTouches(h, h', v) && NodeOk(h', nd', v)
    && nd'.alive && nd'.snapIndex == nd.snapIndex
  }

  lemma CountedSame(h: History, nd: Node, nd': Node, v: int)
    requires Sound(h) && 0 <= v < |h.log| && NodeOk(h, nd', v) && nd'.alive && nd'.snapIndex == nd.snapIndex
    ensures Sized(h) && TakenIn(h, nd, nd', v)
  {
    assert h.term[v := nd'.term] == h.term;
    assert Grows(h, h) && OnlyTouches(h, h, v);
    hide Sound, Represents, IndexSpace, Grows, OnlyTouches;
  }

  lemma CountedDeposed(h: History, nd: Node, v: int, term: int)
    requires Sound(h) && 0 <= v < |h.log| && NodeOk(h, nd, v) && nd.alive && term > nd.term
    ensures Sized(h) && TakenIn(h, nd, NewerTerm(nd, term), v)
  {
    SoundSized(h);
    hide Sound, NodeOk, Grows, OnlyTouches;
    MeetOk(h, nd, v, term);
  }

  lemma LeaderKeepsIndices(h: History, nd: Node, v: int, j: int)
    requires Sized(h) && 0 <= v < |h.log| && NodeOk(h, nd, v) && nd.status == Leader && HasPeer(nd, j)
    ensures nd.matchIndex[j] <= LastIndex(nd) && nd.commitIndex <= LastIndex(nd)
  {
  }

  /** The commit index after an answer. */
  function CommitAfter(nd: Node, n: nat, args: AppendArgs, num: int): int {
    if num + 1 >= 1 + n / 2 && |args.entries| > 0 && args.entries[|args.entries| - 1].term == nd.term then
      Max(nd.commitIndex, args.prevIndex + |args.entries|)
    else
      nd.commitIndex
  }

  lemma CountAppendIs(nd: Node, n: nat, j: int, args: AppendArgs, reply: AppendReply, num: int)
    requires HasPeer(nd, j) && CountsIn(nd, reply)
    requires 0 <= args.prevIndex + |args.entries| <= LastIndex(nd)
    requires nd.matchIndex[j] <= LastIndex(nd) && nd.commitIndex <= LastIndex(nd)
    ensures var matched := Max(nd.matchIndex[j], args.prevIndex + |args.entries|);
      CountAppend(nd, n, j, args, reply, num) == (
        nd.(nextIndex := nd.nextIndex[j := matched + 1], matchIndex := nd.matchIndex[j := matched],
            commitIndex := CommitAfter(nd, n, args, num)),
        if num + 1 < n / 2 + 1 then num + 1 else 0)
  {
  }

  lemma TakeSuccess(h: History, nd: Node, rounds: seq<Round>, a: AppendAnswer, num: int)
    requires CanTakeAppend(h, nd, rounds, a) && CountsIn(nd, a.reply)
    ensures var (nd', num') := CountAppend(nd, |h.log|, a.call.to, a.call.args, a.reply, num);
      && Sized(h) && TakenIn(h, nd, nd', a.call.args.leader)
      && num' == (if num + 1 < |h.log| / 2 + 1 then num + 1 else 0)
      && nd'.commitIndex == CommitAfter(nd, |h.log|, a.call.args, num)
  {
    hide CanTakeAppend, Sound, NodeOk, LastIndex, TakenIn, CountAppend, CommitAfter, AppendAnswerOk, RoundOk;
    var v, j, args := a.call.args.leader, a.call.to, a.call.args;
    CanTakeFacts(h, nd, rounds, a);
    AnswerToLeader(h, nd, rounds, a);
    LeaderKeepsIndices(h, nd, v, j);
    CommitAfterBounds(nd, |h.log|, args, num);
    CountAppendIs(nd, |h.log|, j, args, a.reply, num);
    var matched := Max(nd.matchIndex[j], args.prevIndex + |args.entries|);
    IndicesOk(h, nd, v, j, matched + 1, matched, CommitAfter(nd, |h.log|, args, num));
    CountedSame(h, nd, CountAppend(nd, |h.log|, j, args, a.reply, num).0, v);
  }

  lemma CommitAfterBounds(nd: Node, n: nat, args: AppendArgs, num: int)
    requires args.prevIndex + |args.entries| <= LastIndex(nd) && nd.commitIndex <= LastIndex(nd)
    ensures nd.commitIndex <= CommitAfter(nd, n, args, num) <= LastIndex(nd)
  {
  }

  lemma TakeMismatch(h: History, nd: Node, rounds: seq<Round>, a: AppendAnswer)
    requires CanTakeAppend(h, nd, rounds, a) && a.reply.term == nd.term && nd.status == Leader && !a.reply.success
    requires a.reply.updateNextIndex != STALE_TERM
    ensures Sized(h) && TakenIn(h, nd, nd.(nextIndex := nd.nextIndex[a.call.to := a.reply.updateNextIndex]), a.call.args.leader)
  {
    hide CanTakeAppend, Sound, NodeOk, LastIndex, TakenIn, AppendAnswerOk, RoundOk;
    var v, j := a.call.args.leader, a.call.to;
    CanTakeFacts(h, nd, rounds, a);
    AnswerToLeader(h, nd, rounds, a);
    LeaderKeepsIndices(h, nd, v, j);
    IndicesOk(h, nd, v, j, a.reply.updateNextIndex, nd.matchIndex[j], nd.commitIndex);
    var nd' := nd.(nextIndex := nd.nextIndex[j := a.reply.updateNextIndex]);
    assert nd' == nd'.(matchIndex := nd.matchIndex[j := nd.matchIndex[j]]);
    CountedSame(h, nd, nd', v);
  }

  lemma TakeAppendOk(h: History, nd: Node, rounds: seq<Round>, a: AppendAnswer, num: int)
    requires CanTakeAppend(h, nd, rounds, a)
    ensures var (nd', num') := CountAppend(nd, |h.log|, a.call.to, a.call.args, a.reply, num);
      && Sized(h) && TakenIn(h, nd, nd', a.call.args.leader)
      && num' == (if !CountsIn(nd, a.reply) then num else if num + 1 < |h.log| / 2 + 1 then num + 1 else 0)
      && nd'.commitIndex == (if CountsIn(nd, a.reply) then CommitAfter(nd, |h.log|, a.call.args, num) else nd.commitIndex)
  {
    hide CanTakeAppend, Sound, NodeOk, TakenIn, CommitAfter, AppendAnswerOk, RoundOk;
    var v := a.call.args.leader;
    CanTakeFacts(h, nd, rounds, a);
    if a.reply.term > nd.term {
      CountedDeposed(h, nd, v, a.reply.term);
    } else if CountsIn(nd, a.reply) {
      TakeSuccess(h, nd, rounds, a, num);
    } else if a.reply.term == nd.term && nd.status == Leader && a.reply.updateNextIndex != STALE_TERM {
      TakeMismatch(h, nd, rounds, a);
    } else {
      CountedSame(h, nd, nd, v);
    }
  }

  /** The round's counter stays in step: an answer that counts is a distinct server's acknowledgement of the round's end. */
  lemma RoundCounts(h: History, nd: Node, rounds: seq<Round>, a: AppendAnswer, num: int)
    requires CanTakeAppend(h, nd, rounds, a)
    requires var t := rounds[a.call.round].tally;
      num == (if !CountsIn(nd, a.reply) then t.num else if t.num + 1 < |h.log| / 2 + 1 then t.num + 1 else 0)
    ensures var r := rounds[a.call.round];
      && Sized(h) && RoundOk(h, r.(tally := Count(r.tally, a.call.to, num, CountsIn(nd, a.reply))))
  {
    hide CanTakeAppend, Sound, NodeOk, AppendAnswerOk, TallyOk, Count;
    CanTakeFacts(h, nd, rounds, a);
    var r := rounds[a.call.round];
    AnswerPeer(h, rounds, a);
    CountOk(|h.log|, r.leader, r.tally, a.call.to, num, CountsIn(nd, a.reply));
    if CountsIn(nd, a.reply) {
      AnswerOfTerm(h, rounds, a);
    }
    CountedOnly(r.tally, a.call.to, num, CountsIn(nd, a.reply));
  }

  lemma AnswerPeer(h: History, rounds: seq<Round>, a: AppendAnswer)
    requires Sized(h) && AppendAnswerOk(h, rounds, a) && 0 <= a.call.round < |rounds|
    ensures a.call.to in Peers(|h.log|, rounds[a.call.round].leader)
  {
  }

  lemma CountedOnly(t: Tally, j: int, num: int, counts: bool)
    ensures Count(t, j, num, counts).counted == if counts then t.counted + {j} else t.counted
  {
  }

  lemma RaiseKeepsAcks(h: History, v: int, t: int)
    requires Sized(h) && 0 <= v < |h.log|
    ensures var h' := Raise(h, v, t);
      h'.reign == h.reign && h'.acks == h.acks && h'.candidacy == h.candidacy && h'.vote == h.vote && |h'.log| == |h.log|
  {
  }

  lemma CanTakeAppendHolds(s: Cluster, a: AppendAnswer)
    requires Inv(s) && Enabled(s, TakeAppend(a))
    ensures CanTakeAppend(s.past, s.nodes[a.call.args.leader], s.rounds, a)
  {
  }

  /** What taking in an answer makes of the cluster. */
  ghost predicate AppendAnswered(s: Cluster, s': Cluster, i: int, r: int) {
    && 0 <= i < |s.nodes| == |s'.nodes| && |s'.stream| == |s.stream| && 0 <= r < |s.rounds| == |s'.rounds|
    && Sized(s.past) && i < |s.past.log|
    && s'.nodes == s.nodes[i := s'.nodes[i]]
    && s'.past == Raise(s.past, i, s'.nodes[i].term)
    && TakenIn(s.past, s.nodes[i], s'.nodes[i], i)
    && s'.rounds == s.rounds[r := s'.rounds[r]]
    && s'.rounds[r].leader == s.rounds[r].leader && s'.rounds[r].term == s.rounds[r].term && s'.rounds[r].end == s.rounds[r].end
    && RoundOk(s.past, s'.rounds[r])
    && s'.appendCalls == s.appendCalls && s'.appendAnswers == s.appendAnswers
    && s'.voteCalls == s.voteCalls && s'.voteAnswers == s.voteAnswers && s'.elections == s.elections
    && s'.snapTasks == s.snapTasks && s'.snapCalls == s.snapCalls && s'.snapAnswers == s.snapAnswers
  }

  lemma AnsweredPast(s: Cluster, s': Cluster, i: int, r: int)
    requires Inv(s) && AppendAnswered(s, s', i, r)
    ensures PastOk(s') && Grows(s.past, s'.past) && NodesOk(s') && RoundOk(s'.past, s'.rounds[r])
    ensures s'.past.reign == s.past.reign && s'.past.candidacy == s.past.candidacy
  {
    RaiseKeepsAcks(s.past, i, s'.nodes[i].term);
    SelfAcksStay(s.past, s'.past);
    hide Sound, SelfAcks, NodeOk, Grows, OnlyTouches, ElectionsOk, ReplicationOk, SnapshotsOk, RoundOk, Raise;
    SoundSized(s'.past);
    RoundStays(s.past, s'.past, s'.rounds[r]);
    NodesStay(s, s', i);
  }

  lemma AnsweredInv(s: Cluster, s': Cluster, i: int, r: int)
    requires Inv(s) && AppendAnswered(s, s', i, r)
    ensures Inv(s') && Grows(s.past, s'.past)
  {
    hide PastOk, NodesOk, ElectionsOk, Sound, NodeOk, SnapshotsOk, Grows, OnlyTouches, RoundOk, AppendCallOk, AppendAnswerOk, Raise;
    AnsweredPast(s, s', i, r);
    PastSized(s');
    SameElections(s, s');
    ReplicationStays(s, s');
    SameSnapshots(s, s', i);
  }

  lemma TakeAppendIs(s: Cluster, a: AppendAnswer)
    requires Inv(s) && Enabled(s, TakeAppend(a)) && HasPast(s, a.call.args.leader)
    ensures AppendAnswered(s, DoTakeAppend(s, a), a.call.args.leader, a.call.round)
  {
    hide Inv, CanTakeAppend, TakenIn, CountAppend, RoundOk, Raise, Count, CommitAfter, NodeOk, Sound, SelfAcks, CountsIn;
    var i := a.call.args.leader;
    var nd, t := s.nodes[i], s.rounds[a.call.round].tally;
    CanTakeAppendHolds(s, a);
    InvNode(s, i);
    TakeAppendOk(s.past, nd, s.rounds, a, t.num);
    RoundCounts(s.past, nd, s.rounds, a, CountAppend(nd, |s.nodes|, a.call.to, a.call.args, a.reply, t.num).1);
    CountsInIs(nd, a.reply);
  }

  lemma CountsInIs(nd: Node, reply: AppendReply)
    ensures CountsIn(nd, reply) == (reply.term == nd.term && nd.status == Leader && reply.success)
  {
  }

  lemma AnsweredAlive(s: Cluster, s': Cluster, i: int, r: int)
    requires AppendAnswered(s, s', i, r)
    ensures s'.nodes[i].alive
  {
  }

  lemma TakeAppendInv(s: Cluster, a: AppendAnswer)
    requires Inv(s) && Enabled(s, TakeAppend(a)) && HasPast(s, a.call.args.leader)
    ensures Inv(DoTakeAppend(s, a)) && Grows(s.past, DoTakeAppend(s, a).past)
    ensures DoTakeAppend(s, a).nodes[a.call.args.leader].alive
  {
    hide Inv, AppendAnswered, DoTakeAppend, Enabled, Grows;
    TakeAppendIs(s, a);
    AnsweredInv(s, DoTakeAppend(s, a), a.call.args.leader, a.call.round);
    AnsweredAlive(s, DoTakeAppend(s, a), a.call.args.leader, a.call.round);
  }

  /** Success means that the checks passed, once the server adopted the call's term, and that it merged. */
  lemma SuccessPasses(h: History, nd: Node, call: AppendCall)
    requires Sound(h) && Sized(h) && 0 <= call.to < |h.log| && NodeOk(h, nd, call.to) && FromReign(h, call)
    requires AppendEntries(nd, call.args).1.success
    ensures call.args.term >= nd.term
    ensures var met := Meet(nd, call.args.term).(status := Follower);
      var r := Raise(h, call.to, met.term);
      && Passes(r, met, call)
      && AppendEntries(nd, call.args) == (Appended(met, AcceptedLog(r, call), call.args), AppendReply(met.term, true, 0))
  {
    hide Sound, NodeOk, FromReign, Grows, OnlyTouches, AppendEntries, AcceptedLog, Appended;
    StaleFails(nd, call.args);
    var met := Meet(nd, call.args.term).(status := Follower);
    var r := Raise(h, call.to, met.term);
    AppendMet(h, nd, call);
    AppendMeets(nd, call.args);
    PrevAtLeastZero(r, met, call);
    if call.args.prevIndex < met.snapIndex {
      StaleAppendExits(r, met, call);
    } else if call.args.prevIndex >= |r.log[call.to]| || r.log[call.to][call.args.prevIndex].term != call.args.prevTerm {
      RejectOk(r, met, call);
    } else {
      AcceptOk(r, met, call);
    }
  }

  /** An answer other than success means that neither the log nor the commit index was touched. */
  lemma FailureKeeps(h: History, nd: Node, call: AppendCall)
    requires Sound(h) && Sized(h) && 0 <= call.to < |h.log| && NodeOk(h, nd, call.to) && FromReign(h, call)
    requires !AppendEntries(nd, call.args).1.success
    ensures var nd' := AppendEntries(nd, call.args).0;
      && nd'.logs == nd.logs && nd'.snapIndex == nd.snapIndex && nd'.snapTerm == nd.snapTerm
      && nd'.commitIndex == nd.commitIndex && nd'.lastApplied == nd.lastApplied
  {
    hide Sound, NodeOk, FromReign, Grows, OnlyTouches, AppendEntries, AcceptedLog, Appended;
    if call.args.term < nd.term {
      StaleKeeps(nd, call.args);
    } else {
      var met := Meet(nd, call.args.term).(status := Follower);
      var r := Raise(h, call.to, met.term);
      AppendMet(h, nd, call);
      AppendMeets(nd, call.args);
      PrevAtLeastZero(r, met, call);
      if call.args.prevIndex < met.snapIndex {
        StaleAppendExits(r, met, call);
      } else if call.args.prevIndex >= |r.log[call.to]| || r.log[call.to][call.args.prevIndex].term != call.args.prevTerm {
        RejectOk(r, met, call);
      } else {
        AcceptOk(r, met, call);
      }
    }
  }

  lemma StaleKeeps(nd: Node, args: AppendArgs)
    requires args.term < nd.term
    ensures AppendEntries(nd, args) == (nd, Reject(nd, STALE_TERM))
  {
  }

  lemma StaleFails(nd: Node, args: AppendArgs)
    ensures AppendEntries(nd, args).1.success ==> args.term >= nd.term
  {
  }

  lemma PrevAtLeastZero(h: History, nd: Node, call: AppendCall)
    requires Sound(h) && 0 <= call.to < |h.log| && NodeOk(h, nd, call.to) && FromReign(h, call)
    ensures Sized(h) && 0 <= call.args.prevIndex && 0 <= nd.snapIndex < |h.log[call.to]|
  {
    LastOfLog(nd, h.log[call.to]);
  }
}
