/**
  What the handlers answer and leave, said of the whole logs the records stand for: who gets a vote,
  where an entry goes, where the leader's next call to a peer starts, and when it commits.
*/
module RaftAnswers {
  import opened RaftLog
  import opened RaftNode
  import opened RaftCluster
  import opened RaftReplicationSteps

  // ----- the next call to a peer -----------------------------------------------------------

  /** The peer's next call: from the entry after `matched` to the end, or a snapshot if that is compacted. */
  function CallFrom(nd: Node, log: Log, me: int, matched: int): Outgoing
    requires 0 <= matched < |log|
  {
    if matched < nd.snapIndex then Outgoing.SendSnapshot
    else Append(AppendArgs(nd.term, me, matched, log[matched].term, log[matched + 1..], nd.commitIndex))
  }

  lemma NextCall(nd: Node, log: Log, me: int, j: int, matched: int)
    requires Represents(nd, log) && 0 <= j < |nd.nextIndex| && nd.nextIndex[j] == matched + 1 && 0 <= matched < |log|
    ensures HeartBeatTo(nd, me, j) == CallFrom(nd, log, me, matched)
  {
    HeartBeatIs(nd, log, me, j);
  }

  // ----- votes -----------------------------------------------------------------------------

  /** The test is the one on whole logs: a later last term, or the same and a log no shorter. */
  lemma BallotTest(mine: Node, a: Log, theirs: Node, b: Log)
    requires Represents(mine, a) && Represents(theirs, b)
    ensures |a| > 0 && |b| > 0
    ensures CandidateUpToDate(mine, LastIndex(theirs), LastTerm(theirs)) <==>
      LastTermOf(b) > LastTermOf(a) || (LastTermOf(b) == LastTermOf(a) && |b| >= |a|)
  {
    Represented(mine, a);
    Represented(theirs, b);
  }

  /** Of two servers at least one passes the other's test. */
  lemma BallotsAreTotal(mine: Node, a: Log, theirs: Node, b: Log)
    requires Represents(mine, a) && Represents(theirs, b)
    ensures CandidateUpToDate(mine, LastIndex(theirs), LastTerm(theirs)) || CandidateUpToDate(theirs, LastIndex(mine), LastTerm(mine))
  {
    BallotTest(mine, a, theirs, b);
    BallotTest(theirs, b, mine, a);
    hide CandidateUpToDate, Represents;
  }

  /**
    Exactly when a vote is granted: the term is not older, the candidate's whole log ends in a later
    term or in the same term and no shorter, and in that term the voter has voted for nobody or for
    this candidate.  Either way the voter ends in the later of the two terms and answers it.
  */
  lemma VoteGrantedIff(nd: Node, log: Log, args: VoteArgs, standing: Log)
    requires Represents(nd, log) && |standing| > 0 && args.lastIndex == LastIndexOf(standing) && args.lastTerm == LastTermOf(standing)
    ensures |log| > 0
    ensures var (nd', reply) := RequestVote(nd, args);
      && (reply.granted <==>
            && args.term >= nd.term
            && (LastTermOf(standing) > LastTermOf(log) || (LastTermOf(standing) == LastTermOf(log) && |standing| >= |log|))
            && (args.term > nd.term || nd.votedFor == NOBODY || nd.votedFor == args.candidate))
      && reply.term == nd'.term == Max(nd.term, args.term)
      && (reply.state == Normal <==> reply.granted) && (reply.state == Expire <==> args.term < nd.term)
      && nd' == nd.(term := nd'.term,
                    votedFor := if reply.granted then args.candidate else if args.term > nd.term then NOBODY else nd.votedFor,
                    status := if args.term > nd.term then Follower else nd.status)
  {
    Represented(nd, log);
  }

  /** The vote that makes a majority makes the leader, whose first call to every peer asks for its own last entry. */
  lemma MajorityLeads(nd: Node, log: Log, n: nat, me: int, reply: VoteReply, votes: int)
    requires Represents(nd, log) && IndexSpace(nd, n) && nd.status != Leader
    requires reply.term == nd.term && reply.granted && votes + 1 >= n / 2 + 1
    ensures var (nd', num) := CountVote(nd, n, reply, votes);
      && num == 0 && nd'.status == Leader && nd'.term == nd.term && nd'.alive == nd.alive && nd'.logs == nd.logs
      && |nd'.nextIndex| == |nd'.matchIndex| == n
      && forall j | 0 <= j < n :: nd'.matchIndex[j] == 0 &&
           HeartBeatTo(nd', me, j) == Append(AppendArgs(nd.term, me, |log| - 1, LastTermOf(log), [], nd.commitIndex))
  {
    hide HeartBeatTo, Represents, LastIndex, IndexSpace;
    PeerArrays(nd, n);
    RepresentedSnap(nd, log);
    forall j | 0 <= j < n
      ensures HeartBeatTo(Lead(nd), me, j) == Append(AppendArgs(nd.term, me, |log| - 1, LastTermOf(log), [], nd.commitIndex))
    {
      FirstCall(nd, log, me, j);
    }
  }

  lemma PeerArrays(nd: Node, n: nat)
    requires IndexSpace(nd, n)
    ensures |nd.nextIndex| == |nd.matchIndex| == n
  {
  }

  lemma FirstCall(nd: Node, log: Log, me: int, j: int)
    requires Represents(nd, log) && 0 <= j < |nd.nextIndex|
    ensures |log| > 0 && HeartBeatTo(Lead(nd), me, j) == Append(AppendArgs(nd.term, me, |log| - 1, LastTermOf(log), [], nd.commitIndex))
  {
    hide Represents, LastIndex, HeartBeatTo, Lead;
    LastOfLog(nd, log);
    LeadStands(nd, log);
    LeadKeeps(nd, j);
    NextCall(Lead(nd), log, me, j, |log| - 1);
    assert log[|log|..] == [];
  }

  lemma LeadStands(nd: Node, log: Log)
    requires Represents(nd, log)
    ensures Represents(Lead(nd), log) && |log| > 0
  {
    hide Shaped, LastIndex;
    NotEmpty(log);
  }

  lemma NotEmpty(log: Log)
    requires Shaped(log)
    ensures |log| > 0
  {
  }

  lemma LeadKeeps(nd: Node, j: int)
    requires 0 <= j < |nd.nextIndex|
    ensures var nd' := Lead(nd);
      && |nd'.nextIndex| == |nd.nextIndex| && nd'.nextIndex[j] == LastIndex(nd) + 1
      && nd'.snapIndex == nd.snapIndex && nd'.term == nd.term && nd'.commitIndex == nd.commitIndex
  {
    hide LastIndex;
  }

  /** Any other reply: a newer term deposes, a vote short of the majority is counted, the rest is ignored. */
  lemma OtherVotes(nd: Node, n: nat, reply: VoteReply, votes: int)
    requires reply.term == nd.term && reply.granted ==> votes + 1 < n / 2 + 1
    ensures CountVote(nd, n, reply, votes) ==
      if reply.term > nd.term then (nd.(status := Follower, term := reply.term, votedFor := NOBODY), votes)
      else (nd, if reply.term == nd.term && reply.granted then votes + 1 else votes)
  {
  }

  // ----- proposals -------------------------------------------------------------------------

  /** A leader puts the command at the index it returns, behind all it had; any other server does nothing. */
  lemma StartPuts(nd: Node, log: Log, n: nat, command: string)
    requires Represents(nd, log) && IndexSpace(nd, n)
    ensures var (nd', index, term, leads) := Start(nd, command);
      && (leads <==> nd.status == Leader)
      && (!leads ==> nd' == nd && index == term == -1)
      && (leads ==>
            && term == nd.term && index == |log| == LastIndex(nd')
            && HasSlot(nd', index) && EntryAt(nd', index) == Entry(index, term, command)
            && (forall i | HasSlot(nd, i) :: HasSlot(nd', i) && EntryAt(nd', i) == EntryAt(nd, i))
            && |nd'.logs| == |nd.logs| + 1 && nd' == nd.(logs := nd'.logs))
  {
    LastOfLog(nd, log);
    hide Represents, Shaped, LastTerm;
    StartKeeps(nd, log, command);
  }

  lemma StartKeeps(nd: Node, log: Log, command: string)
    requires Represents(nd, log)
    ensures nd.status == Leader ==>
      var nd' := Start(nd, command).0;
      && LastIndex(nd') == |log| && HasSlot(nd', |log|) && EntryAt(nd', |log|) == Entry(|log|, nd.term, command)
      && forall i | HasSlot(nd, i) :: HasSlot(nd', i) && EntryAt(nd', i) == EntryAt(nd, i)
  {
    LastOfLog(nd, log);
    hide Shaped;
  }

  // ----- AppendEntries ---------------------------------------------------------------------

  /** Whoever lives through an AppendEntries answers its own term, the later of the two. */
  lemma AppendAnswersTerm(nd: Node, args: AppendArgs)
    requires nd.alive && AppendEntries(nd, args).0.alive
    ensures var (nd', reply) := AppendEntries(nd, args);
      && reply.term == nd'.term == Max(nd.term, args.term)
      && nd'.status == (if args.term >= nd.term then Follower else nd.status)
      && nd'.votedFor == (if args.term > nd.term then NOBODY else nd.votedFor)
      && (args.term < nd.term ==> nd' == nd && !reply.success && reply.updateNextIndex == STALE_TERM)
  {
    hide MergeEntries, BackOff;
  }

  /** The two refusals of a call that is not older, and exactly the index each sends back. */
  lemma RefusalSays(nd: Node, log: Log, args: AppendArgs)
    requires Represents(nd, log) && args.term >= nd.term && nd.snapIndex <= args.prevIndex
    requires args.prevIndex >= |log| || log[args.prevIndex].term != args.prevTerm
    ensures 0 <= nd.snapIndex
    ensures var (nd', reply) := AppendEntries(nd, args);
      && nd' == Meet(nd, args.term).(status := Follower) && !reply.success
      && (args.prevIndex >= |log| ==> reply.updateNextIndex == |log|)
      && (args.prevIndex < |log| ==> StretchStart(log, nd.snapIndex, args.prevIndex, reply.updateNextIndex))
  {
    var met := Meet(nd, args.term).(status := Follower);
    SameStands(nd, log, args.term);
    hide KnowsTerm, TermAt, LastIndex, BackOff, MergeEntries, Represents, StretchStart;
    LastOfLog(met, log);
    if args.prevIndex < |log| {
      TermOf(met, log, args.prevIndex);
      BackOffExact(met, log, args.prevIndex, args.prevIndex);
    }
  }

  lemma SameStands(nd: Node, log: Log, term: int)
    requires Represents(nd, log)
    ensures var met := Meet(nd, term).(status := Follower);
      Represents(met, log) && met.snapIndex == nd.snapIndex && 0 <= nd.snapIndex < |log|
  {
  }

  lemma RepresentedSnap(nd: Node, log: Log)
    requires Represents(nd, log)
    ensures 0 <= nd.snapIndex < |log|
  {
  }

  // ----- replies to the leader -------------------------------------------------------------

  /**
    A success of the leader's term: the peer's next call starts behind all it is known to hold, no
    other peer moves, and the reply that makes a majority of the heartbeat commits its end exactly if
    the last entry sent is of the leader's own term.
  */
  lemma SuccessSays(nd: Node, log: Log, n: nat, me: int, j: int, args: AppendArgs, reply: AppendReply, acks: int)
    requires Represents(nd, log) && IndexSpace(nd, n) && nd.status == Leader && nd.alive && 0 <= j < n && HasPeer(nd, j)
    requires nd.matchIndex[j] >= 0
    requires reply.term == nd.term && reply.success && 0 <= args.prevIndex && args.prevIndex + |args.entries| < |log|
    ensures var (nd', num) := CountAppend(nd, n, j, args, reply, acks);
      var end := args.prevIndex + |args.entries|;
      var matched := Max(nd.matchIndex[j], end);
      && nd'.alive && nd' == nd.(nextIndex := nd'.nextIndex, matchIndex := nd'.matchIndex, commitIndex := nd'.commitIndex)
      && nd'.matchIndex == nd.matchIndex[j := matched] && nd'.nextIndex == nd.nextIndex[j := matched + 1]
      && 0 <= matched < |log| && HeartBeatTo(nd', me, j) == CallFrom(nd', log, me, matched)
      && nd'.commitIndex ==
           (if acks + 1 >= n / 2 + 1 && |args.entries| > 0 && args.entries[|args.entries| - 1].term == nd.term then Max(nd.commitIndex, end)
            else nd.commitIndex)
      && num == if acks + 1 >= n / 2 + 1 then 0 else acks + 1
  {
    var nd' := CountAppend(nd, n, j, args, reply, acks).0;
    Represented(nd, log);
    CountAppendIs(nd, n, j, args, reply, acks);
    hide CountAppend, LastIndex;
    var matched := Max(nd.matchIndex[j], args.prevIndex + |args.entries|);
    assert Represents(nd', log);
    NextCall(nd', log, me, j, matched);
  }

  /** A mismatch of the leader's term: the peer's next call starts at the index sent back; nothing else changes. */
  lemma MismatchSays(nd: Node, log: Log, n: nat, me: int, j: int, args: AppendArgs, reply: AppendReply, acks: int)
    requires Represents(nd, log) && nd.status == Leader && HasPeer(nd, j)
    requires reply.term == nd.term && !reply.success && 1 <= reply.updateNextIndex <= |log|
    ensures var (nd', num) := CountAppend(nd, n, j, args, reply, acks);
      && nd' == nd.(nextIndex := nd.nextIndex[j := reply.updateNextIndex]) && num == acks
      && HeartBeatTo(nd', me, j) == CallFrom(nd', log, me, reply.updateNextIndex - 1)
  {
    NextCall(CountAppend(nd, n, j, args, reply, acks).0, log, me, j, reply.updateNextIndex - 1);
  }

  /** A reply of a newer term deposes; one of an older term, or to a server that no longer leads, is ignored. */
  lemma OtherReplies(nd: Node, n: nat, j: int, args: AppendArgs, reply: AppendReply, acks: int)
    requires HasPeer(nd, j) && (reply.term != nd.term || nd.status != Leader)
    ensures CountAppend(nd, n, j, args, reply, acks) ==
      (if reply.term > nd.term then nd.(status := Follower, term := reply.term, votedFor := NOBODY) else nd, acks)
  {
  }

  // ----- snapshots -------------------------------------------------------------------------

  /**
    The answer to a snapshot: of a newer term it deposes; else the peer's next call starts behind the
    snapshot, an AppendEntries as long as that is still the leader's, and no other peer moves.
  */
  lemma SnapshotAnswerSays(nd: Node, log: Log, me: int, j: int, args: SnapArgs, term: int)
    requires Represents(nd, log) && HasPeer(nd, j) && nd.status == Leader && nd.term == args.term && 0 <= args.lastIndex < |log|
    ensures var nd' := SnapshotAnswered(nd, j, args, term);
      if term > nd.term then
        nd' == nd.(status := Follower, term := term, votedFor := NOBODY)
      else
        && nd' == nd.(matchIndex := nd.matchIndex[j := args.lastIndex], nextIndex := nd.nextIndex[j := args.lastIndex + 1])
        && HeartBeatTo(nd', me, j) == CallFrom(nd', log, me, args.lastIndex)
        && (nd.snapIndex == args.lastIndex ==> HeartBeatTo(nd', me, j).Append? && HeartBeatTo(nd', me, j).args.prevIndex == args.lastIndex)
  {
    if term <= nd.term {
      NextCall(SnapshotAnswered(nd, j, args, term), log, me, j, args.lastIndex);
    }
  }

  /** An answer to a server that no longer leads the term it sent in is ignored. */
  lemma SnapshotAnswerLate(nd: Node, j: int, args: SnapArgs, term: int)
    requires HasPeer(nd, j) && (nd.status != Leader || nd.term != args.term)
    ensures SnapshotAnswered(nd, j, args, term) == nd
  {
  }

  /** The term an InstallSnapshot answers: the server's own, or none, which reads as 0, when the snapshot is not newer. */
  lemma InstallAnswers(nd: Node, args: SnapArgs)
    requires nd.alive && InstallSnapshot(nd, args).0.alive
    ensures var (nd', term, msgs) := InstallSnapshot(nd, args);
      && nd'.term == Max(nd.term, args.term)
      && nd'.status == (if args.term >= nd.term then Follower else nd.status)
      && nd'.votedFor == (if args.term > nd.term then NOBODY else nd.votedFor)
      && (args.term < nd.term ==> nd' == nd && term == nd.term && msgs == [])
      && (args.term >= nd.term && args.lastIndex <= nd.snapIndex ==> term == 0 && msgs == [])
      && (args.term >= nd.term && args.lastIndex > nd.snapIndex ==> term == nd'.term && |msgs| == 1)
  {
  }

  /** A leader that takes in the answer of a server with a newer term steps down to that term. */
  lemma NewerTermDeposes(leader: Node, j: int, args: SnapArgs, receiver: Node)
    requires HasPeer(leader, j) && leader.status == Leader && leader.term == args.term && receiver.term > args.term
    ensures SnapshotAnswered(leader, j, args, InstallSnapshot(receiver, args).1) ==
      leader.(status := Follower, term := receiver.term, votedFor := NOBODY)
  {
  }

  /** What a server sends on is what it took: its own snapshot, or the one it installed, with index, term and data. */
  lemma SnapshotSentOn(nd: Node, log: Log, n: nat, me: int, index: int, data: string, args: SnapArgs)
    requires Represents(nd, log) && IndexSpace(nd, n)
    ensures nd.snapIndex < index <= nd.commitIndex ==>
      index < |log| && SnapshotToSend(TakeSnapshot(nd, index, data), me) == SnapArgs(nd.term, me, index, log[index].term, data)
    ensures args.term >= nd.term && args.lastIndex > nd.snapIndex && InstallSnapshot(nd, args).0.alive && nd.alive ==>
      SnapshotToSend(InstallSnapshot(nd, args).0, me) == SnapArgs(args.term, me, args.lastIndex, args.lastTerm, args.data)
  {
    Represented(nd, log);
  }
}
