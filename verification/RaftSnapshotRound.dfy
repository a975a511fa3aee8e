/**
  Catching up over a snapshot: a heartbeat finds the peer behind the leader's snapshot and sends it,
  the peer installs it, the leader takes in the answer, and the next heartbeat leaves the peer with
  the leader's log from the snapshot on.
*/
module RaftSnapshotRound {
  import opened RaftLog
  import opened RaftNode
  import opened RaftCluster
  import opened RaftReplicationSteps
  import opened RaftSnapshotSteps
  import opened RaftBackOff
  import opened RaftAnswers

  /** The leader's next call to j is its snapshot; the peer's snapshot is older. */
  ghost predicate Behind(leader: Node, llog: Log, follower: Node, flog: Log, n: nat, j: int) {
    && leader.alive && leader.status == Leader && Represents(leader, llog) && IndexSpace(leader, n) && 0 <= j < n
    && HasPeer(leader, j) && leader.nextIndex[j] <= leader.snapIndex && leader.matchIndex[j] >= 0
    && follower.alive && follower.term <= leader.term && Represents(follower, flog) && IndexSpace(follower, n)
    && follower.snapIndex < leader.snapIndex
    && Compatible(llog, flog)
  }

  function Prefix(log: Log, s: int): Log
    requires 0 <= s < |log|
  {
    log[..s + 1]
  }

  lemma PrefixShaped(nd: Node, log: Log)
    requires Represents(nd, log)
    ensures 0 <= nd.snapIndex < |log| && Shaped(log) && Shaped(Prefix(log, nd.snapIndex))
    ensures LastTermOf(Prefix(log, nd.snapIndex)) == nd.snapTerm == log[nd.snapIndex].term
  {
  }

  /** The snapshot, installed: the follower stands for the leader's log up to it, and its own behind. */
  lemma Takes(leader: Node, llog: Log, follower: Node, flog: Log, n: nat, me: int, j: int)
    requires Behind(leader, llog, follower, flog, n, j)
    ensures 0 <= leader.snapIndex < |llog|
    ensures var flog' := Covered(flog, Prefix(llog, leader.snapIndex));
      var (follower', term, msgs) := InstallSnapshot(follower, SnapshotToSend(leader, me));
      && term == leader.term && follower'.alive && follower'.term == leader.term && follower'.status == Follower
      && follower'.snapIndex == leader.snapIndex && Represents(follower', flog') && IndexSpace(follower', n)
  {
    hide Covered, InstallSnapshot, Represents, IndexSpace, Compatible;
    PrefixShaped(leader, llog);
    var met := Meet(follower, leader.term).(status := Follower);
    StepsDown(follower, flog, n, leader.term);
    var call := SnapCall(SnapTask(0, me, j), SnapshotToSend(leader, me), Prefix(llog, leader.snapIndex));
    SnapshotMeets(follower, call.args);
    InstallsIs(met, flog, call);
    InstalledRepresents(met, flog, n, call);
  }

  lemma StepsDown(nd: Node, log: Log, n: nat, term: int)
    requires Represents(nd, log) && IndexSpace(nd, n) && term >= nd.term
    ensures var met := Meet(nd, term).(status := Follower);
      Represents(met, log) && IndexSpace(met, n) && met.term == term && met.snapIndex == nd.snapIndex && met.alive == nd.alive
  {
  }

  lemma CoveredCompatible(llog: Log, flog: Log, s: int)
    requires Compatible(llog, flog) && 0 <= s < |llog| && Shaped(flog) && Shaped(llog)
    ensures var flog' := Covered(flog, Prefix(llog, s));
      Compatible(llog, flog') && |flog'| > s && flog'[s] == llog[s] && Shaped(flog')
  {
    CoveredAt(flog, Prefix(llog, s));
    hide Covered;
  }

  lemma LogShaped(nd: Node, log: Log)
    requires Represents(nd, log)
    ensures Shaped(log)
  {
  }

  /** What the next heartbeat sends, behind the snapshot. */
  function Rest(leader: Node, llog: Log, me: int): AppendArgs
    requires 0 <= leader.snapIndex < |llog|
  {
    AppendArgs(leader.term, me, leader.snapIndex, llog[leader.snapIndex].term, llog[leader.snapIndex + 1..], leader.commitIndex)
  }

  /** A follower at the leader's snapshot takes the rest of the leader's log. */
  lemma TakesRest(leader: Node, llog: Log, follower: Node, flog: Log, n: nat, me: int)
    requires Represents(leader, llog) && Represents(follower, flog) && IndexSpace(follower, n)
    requires follower.status == Follower && follower.term == leader.term && follower.alive && follower.snapIndex == leader.snapIndex
    requires Compatible(llog, flog) && 0 <= leader.snapIndex < |llog| && leader.snapIndex < |flog|
    requires flog[leader.snapIndex] == llog[leader.snapIndex]
    ensures var (follower', reply) := AppendEntries(follower, Rest(leader, llog, me));
      var log := Merged(flog, leader.snapIndex, llog[leader.snapIndex + 1..]);
      && reply == AppendReply(leader.term, true, 0) && follower'.alive
      && Represents(follower', log) && SameFrom(llog, log, leader.snapIndex)
  {
    var s, args := leader.snapIndex, Rest(leader, llog, me);
    LogShaped(leader, llog);
    LogShaped(follower, flog);
    BatchFits(leader, llog, flog, me, s + 1);
    MergedAt(flog, s, args.entries);
    MergedSame(llog, flog, s + 1);
    hide AppendEntries, Merged, Compatible, Consecutive, NoClash, Shaped, Represents, IndexSpace, SameFrom;
    AppendMerges(follower, flog, args, n);
    AppendedOk(follower, flog, Merged(flog, s, args.entries), args, n);
  }

  /**
    The snapshot round: one heartbeat with the snapshot and one behind it, and the peer holds the
    leader's log from the snapshot on, and the leader knows it.
  */
  lemma SnapshotRoundCatchesUp(leader: Node, llog: Log, follower: Node, flog: Log, n: nat, me: int, j: int) returns (flog': Log)
    requires Behind(leader, llog, follower, flog, n, j)
    ensures HasPeer(leader, j) && HeartBeatTo(leader, me, j) == Outgoing.SendSnapshot
    ensures var args := SnapshotToSend(leader, me);
      var (follower1, term, _) := InstallSnapshot(follower, args);
      var leader1 := SnapshotAnswered(leader, j, args, term);
      && HasPeer(leader1, j)
      && var (leader2, follower2, ok) := Exchange(leader1, follower1, n, me, j);
         ok && CaughtUp(leader2, llog, follower2, flog', j, leader.snapIndex)
  {
    hide HeartBeatTo, InstallSnapshot, AppendEntries, CountAppend, Covered, Merged, Represents, IndexSpace, Compatible, SameFrom, Shaped;
    var s, args := leader.snapIndex, SnapshotToSend(leader, me);
    PeerAt(leader, llog, n, j);
    HeartBeatIs(leader, llog, me, j);
    Takes(leader, llog, follower, flog, n, me, j);
    var follower1, term := InstallSnapshot(follower, args).0, InstallSnapshot(follower, args).1;
    LogShaped(leader, llog);
    LogShaped(follower, flog);
    CoveredCompatible(llog, flog, s);
    var flog1 := Covered(flog, Prefix(llog, s));
    SnapshotAnswerSays(leader, llog, me, j, args, term);
    var leader1 := SnapshotAnswered(leader, j, args, term);
    AnsweredStands(leader, llog, n, j, s);
    TakesRest(leader1, llog, follower1, flog1, n, me);
    SuccessSays(leader1, llog, n, me, j, Rest(leader1, llog, me), AppendReply(leader.term, true, 0), 1);
    flog' := Merged(flog1, s, llog[s + 1..]);
  }

  lemma PeerAt(leader: Node, llog: Log, n: nat, j: int)
    requires Represents(leader, llog) && IndexSpace(leader, n) && leader.status == Leader && 0 <= j < n
    ensures HasPeer(leader, j) && 1 <= leader.nextIndex[j] <= |llog| && 0 <= leader.snapIndex < |llog|
  {
    LastOfLog(leader, llog);
  }

  /** The leader with the peer's indices moved behind the snapshot stands for the same log. */
  lemma AnsweredStands(leader: Node, llog: Log, n: nat, j: int, s: int)
    requires Represents(leader, llog) && IndexSpace(leader, n) && leader.status == Leader && HasPeer(leader, j) && s == leader.snapIndex
    ensures var leader' := leader.(matchIndex := leader.matchIndex[j := s], nextIndex := leader.nextIndex[j := s + 1]);
      Represents(leader', llog) && IndexSpace(leader', n)
  {
    LastOfLog(leader, llog);
    hide Shaped;
  }
}
