/**
  Log back-off: a leader's heartbeats to one follower, each mismatch sending `nextIndex` back, reach
  a match within lastLogIndex + 1 rounds, and the follower then holds the leader's whole batch.  The
  leader and its log are fixed, and neither side has a snapshot.
*/
module RaftBackOff {
  import opened RaftLog
  import opened RaftNode
  import opened RaftCluster
  import opened RaftReplicationSteps

  /** One heartbeat's call to peer j, delivered, answered and taken in. */
  function Exchange(leader: Node, follower: Node, n: nat, me: int, j: int): (Node, Node, bool)
    requires HasPeer(leader, j)
  {
    match HeartBeatTo(leader, me, j)
    case Append(args) =>
      var (follower', reply) := AppendEntries(follower, args);
      var (leader', _) := CountAppend(leader, n, j, args, reply, 1);
      (leader', follower', reply.success)
    case _ => (leader, follower, false)
  }

  /** An index and a term name one entry over the two logs. */
  ghost predicate Compatible(a: Log, b: Log) {
    forall i | 0 <= i < |a| && i < |b| && a[i].term == b[i].term :: a[i] == b[i]
  }

  ghost predicate LeaderOf(leader: Node, log: Log, n: nat, j: int) {
    && leader.alive && leader.status == Leader && leader.snapIndex == 0
    && Represents(leader, log) && IndexSpace(leader, n) && 0 <= j < n
  }

  ghost predicate FollowerOf(follower: Node, log: Log, n: nat, term: int) {
    && follower.alive && follower.snapIndex == 0 && follower.term <= term
    && Represents(follower, log) && IndexSpace(follower, n)
  }

  function ArgsFor(leader: Node, log: Log, me: int, next: int): AppendArgs
    requires 1 <= next <= |log|
  {
    AppendArgs(leader.term, me, next - 1, log[next - 1].term, log[next..], leader.commitIndex)
  }

  lemma LeaderFacts(leader: Node, log: Log, n: nat, j: int)
    requires LeaderOf(leader, log, n, j)
    ensures HasPeer(leader, j) && 1 <= leader.nextIndex[j] <= |log| && leader.matchIndex[j] <= |log| - 1
    ensures LastIndex(leader) == |log| - 1 && leader.commitIndex <= |log| - 1 && leader.status == Leader
    ensures |log| > 0 && log[0] == ORIGIN && Shaped(log)
  {
    LastOfLog(leader, log);
  }

  lemma LeaderSends(leader: Node, log: Log, n: nat, me: int, j: int)
    requires LeaderOf(leader, log, n, j)
    ensures HasPeer(leader, j) && 1 <= leader.nextIndex[j] <= |log|
    ensures HeartBeatTo(leader, me, j) == Append(ArgsFor(leader, log, me, leader.nextIndex[j]))
  {
    LeaderFacts(leader, log, n, j);
    HeartBeatIs(leader, log, me, j);
  }

  function Adopted(follower: Node, term: int): Node {
    Meet(follower, term).(status := Follower)
  }

  lemma AdoptedOf(follower: Node, log: Log, n: nat, term: int)
    requires FollowerOf(follower, log, n, term)
    ensures FollowerOf(Adopted(follower, term), log, n, term)
    ensures Adopted(follower, term).term == term && Adopted(follower, term).status == Follower
  {
  }

  // ----- a mismatch ------------------------------------------------------------------------

  ghost predicate Mismatch(log: Log, args: AppendArgs) {
    args.prevIndex >= |log| || (0 <= args.prevIndex && log[args.prevIndex].term != args.prevTerm)
  }

  /** A follower that refuses sends back an index from 1 up to the previous one. */
  lemma Refuses(follower: Node, log: Log, n: nat, args: AppendArgs)
    requires FollowerOf(follower, log, n, args.term) && follower.status == Follower && follower.term == args.term
    requires args.prevIndex > 0 && Mismatch(log, args)
    ensures var (follower', reply) := AppendEntries(follower, args);
      && follower' == follower && !reply.success && reply.term == args.term
      && 1 <= reply.updateNextIndex <= args.prevIndex
  {
    assert Represents(follower, log) && |log| > 0;
    hide KnowsTerm, TermAt, LastIndex, Represents, BackOff, IndexSpace;
    LastOfLog(follower, log);
    assert Meet(follower, args.term).(status := Follower) == follower;
    if args.prevIndex < |log| {
      TermOf(follower, log, args.prevIndex);
      BackOffExact(follower, log, args.prevIndex, args.prevIndex);
    }
  }

  // ----- a match ---------------------------------------------------------------------------

  lemma BatchFits(leader: Node, llog: Log, flog: Log, me: int, next: int)
    requires Shaped(llog) && Shaped(flog) && Compatible(llog, flog) && 1 <= next <= |llog| && next <= |flog|
    ensures var args := ArgsFor(leader, llog, me, next);
      && Consecutive(args.prevIndex, args.entries) && NoClash(flog, args.prevIndex, args.entries)
      && Shaped(Merged(flog, args.prevIndex, args.entries))
  {
    var args := ArgsFor(leader, llog, me, next);
    MergedAt(flog, args.prevIndex, args.entries);
    assert forall k | 0 <= k < |args.entries| :: args.entries[k] == llog[next + k];
  }

  /** A follower that matches merges the batch. */
  lemma Merges(follower: Node, flog: Log, n: nat, leader: Node, llog: Log, me: int, next: int)
    requires FollowerOf(follower, flog, n, leader.term) && follower.status == Follower && follower.term == leader.term
    requires Shaped(llog) && Shaped(flog) && Compatible(llog, flog) && 1 <= next <= |llog| && next <= |flog|
    requires flog[next - 1].term == llog[next - 1].term
    ensures var args := ArgsFor(leader, llog, me, next);
      var log := Merged(flog, args.prevIndex, args.entries);
      && |log| > 0 && AppendEntries(follower, args) == (Appended(follower, log, args), AppendReply(leader.term, true, 0))
  {
    var args := ArgsFor(leader, llog, me, next);
    BatchFits(leader, llog, flog, me, next);
    MergedAt(flog, args.prevIndex, args.entries);
    hide AppendEntries, Merged, Compatible, Consecutive, NoClash, Shaped, Represents, IndexSpace, Appended;
    AppendMerges(follower, flog, args, n);
  }

  // ----- one round -------------------------------------------------------------------------

  /** The two logs are the same from p on, as far as the leader's reaches. */
  ghost predicate SameFrom(a: Log, b: Log, p: int) {
    |a| <= |b| && forall i | 0 <= p <= i < |a| :: a[i] == b[i]
  }

  lemma MergedSame(llog: Log, flog: Log, next: int)
    requires Compatible(llog, flog) && 1 <= next <= |llog| && next <= |flog| && flog[next - 1].term == llog[next - 1].term
    ensures SameFrom(llog, Merged(flog, next - 1, llog[next..]), next - 1)
  {
    MergedAt(flog, next - 1, llog[next..]);
  }

  ghost predicate Matches(llog: Log, flog: Log, next: int) {
    1 <= next <= |llog| && next <= |flog| && flog[next - 1].term == llog[next - 1].term
  }

  lemma CountMismatch(leader: Node, log: Log, n: nat, j: int, args: AppendArgs, next: int)
    requires LeaderOf(leader, log, n, j) && 1 <= next <= |log|
    ensures HasPeer(leader, j)
    ensures var leader' := CountAppend(leader, n, j, args, AppendReply(leader.term, false, next), 1).0;
      LeaderOf(leader', log, n, j) && leader'.nextIndex[j] == next && leader'.term == leader.term
  {
  }

  /** A round that fails leaves the follower's log alone and lowers the next index; at index 1 none fails. */
  lemma RoundFails(leader: Node, llog: Log, follower: Node, flog: Log, n: nat, me: int, j: int)
    requires LeaderOf(leader, llog, n, j) && FollowerOf(follower, flog, n, leader.term)
    requires HasPeer(leader, j) && 0 <= j < |leader.nextIndex| && !Matches(llog, flog, leader.nextIndex[j])
    ensures var (leader', follower', ok) := Exchange(leader, follower, n, me, j);
      && !ok && LeaderOf(leader', llog, n, j) && FollowerOf(follower', flog, n, leader'.term)
      && leader'.nextIndex[j] < leader.nextIndex[j]
  {
    hide LeaderOf, FollowerOf, Shaped, AppendEntries, CountAppend, HeartBeatTo;
    var next := leader.nextIndex[j];
    LeaderFacts(leader, llog, n, j);
    LeaderSends(leader, llog, n, me, j);
    var args := ArgsFor(leader, llog, me, next);
    AdoptedOf(follower, flog, n, leader.term);
    FollowerStarts(follower, flog, n, leader.term);
    AppendMeets(follower, args);
    Refuses(Adopted(follower, leader.term), flog, n, args);
    var reply := AppendEntries(follower, args).1;
    CountMismatch(leader, llog, n, j, args, reply.updateNextIndex);
    assert reply == AppendReply(leader.term, false, reply.updateNextIndex);
  }

  lemma FollowerStarts(follower: Node, log: Log, n: nat, term: int)
    requires FollowerOf(follower, log, n, term)
    ensures |log| > 0 && log[0] == ORIGIN && Shaped(log) && follower.term <= term && follower.snapIndex == 0
  {
  }

  lemma CountMatch(leader: Node, log: Log, n: nat, j: int, args: AppendArgs)
    requires LeaderOf(leader, log, n, j) && args.prevIndex + |args.entries| == |log| - 1
    ensures HasPeer(leader, j)
    ensures var leader' := CountAppend(leader, n, j, args, AppendReply(leader.term, true, 0), 1).0;
      leader'.alive && leader'.nextIndex[j] == |log| && leader'.matchIndex[j] == |log| - 1
  {
    LeaderFacts(leader, log, n, j);
    hide LeaderOf, LastIndex, Shaped;
    CountAppendIs(leader, n, j, args, AppendReply(leader.term, true, 0), 1);
  }

  /** What a successful round leaves: the follower has the leader's log from the previous index on. */
  ghost predicate CaughtUp(leader: Node, llog: Log, follower: Node, flog: Log, j: int, p: int) {
    && leader.alive && 0 <= j < |leader.nextIndex| && j < |leader.matchIndex|
    && leader.nextIndex[j] == |llog| && leader.matchIndex[j] == |llog| - 1
    && follower.alive && Represents(follower, flog) && SameFrom(llog, flog, p)
  }

  lemma RoundSucceeds(leader: Node, llog: Log, follower: Node, flog: Log, n: nat, me: int, j: int) returns (flog': Log)
    requires LeaderOf(leader, llog, n, j) && FollowerOf(follower, flog, n, leader.term) && Compatible(llog, flog)
    requires HasPeer(leader, j) && 0 <= j < |leader.nextIndex| && Matches(llog, flog, leader.nextIndex[j])
    ensures var (leader', follower', ok) := Exchange(leader, follower, n, me, j);
      ok && CaughtUp(leader', llog, follower', flog', j, leader.nextIndex[j] - 1)
  {
    hide LeaderOf, FollowerOf, Shaped, Compatible, AppendEntries, CountAppend, HeartBeatTo, Merged, SameFrom, Represents, Appended;
    var next := leader.nextIndex[j];
    LeaderFacts(leader, llog, n, j);
    LeaderSends(leader, llog, n, me, j);
    var args := ArgsFor(leader, llog, me, next);
    AdoptedOf(follower, flog, n, leader.term);
    FollowerStarts(follower, flog, n, leader.term);
    FollowerStarts(Adopted(follower, leader.term), flog, n, leader.term);
    AppendMeets(follower, args);
    Merges(Adopted(follower, leader.term), flog, n, leader, llog, me, next);
    MergedSame(llog, flog, next);
    CountMatch(leader, llog, n, j, args);
    flog' := Merged(flog, args.prevIndex, args.entries);
    MergedStands(Adopted(follower, leader.term), flog, n, leader, llog, me, next);
    CountKeepsPeers(leader, n, j, args, AppendReply(leader.term, true, 0));
  }

  lemma CountKeepsPeers(leader: Node, n: nat, j: int, args: AppendArgs, reply: AppendReply)
    requires HasPeer(leader, j)
    ensures HasPeer(CountAppend(leader, n, j, args, reply, 1).0, j)
  {
  }

  lemma MergedStands(follower: Node, flog: Log, n: nat, leader: Node, llog: Log, me: int, next: int)
    requires FollowerOf(follower, flog, n, leader.term) && follower.status == Follower
    requires Shaped(llog) && Shaped(flog) && Compatible(llog, flog) && 1 <= next <= |llog| && next <= |flog|
    ensures var args := ArgsFor(leader, llog, me, next);
      var log := Merged(flog, args.prevIndex, args.entries);
      |log| > 0 && Represents(Appended(follower, log, args), log) && Appended(follower, log, args).alive
  {
    var args := ArgsFor(leader, llog, me, next);
    BatchFits(leader, llog, flog, me, next);
    MergedAt(flog, args.prevIndex, args.entries);
    hide Merged, Compatible, Consecutive, NoClash;
    AppendedOk(follower, flog, Merged(flog, args.prevIndex, args.entries), args, n);
  }

  // ----- all rounds ------------------------------------------------------------------------

  /** The pair after k rounds. */
  ghost function Rounds(leader: Node, follower: Node, n: nat, me: int, j: int, k: nat): (Node, Node)
    decreases k
  {
    if k == 0 || !HasPeer(leader, j) then
      (leader, follower)
    else
      var (leader', follower', _) := Exchange(leader, follower, n, me, j);
      Rounds(leader', follower', n, me, j, k - 1)
  }

  lemma AtOneMatches(llog: Log, flog: Log)
    requires |llog| > 0 && |flog| > 0 && llog[0] == ORIGIN && flog[0] == ORIGIN
    ensures Matches(llog, flog, 1)
  {
  }

  /**
    After k failing rounds, k at most the leader's last index, the next round succeeds, and the
    follower's log equals the leader's over the whole batch and at the index before it.
  */
  lemma {:induction false} BackOffTerminates(leader: Node, llog: Log, follower: Node, flog: Log, n: nat, me: int, j: int)
    returns (k: nat, flog': Log, p: int)
    requires LeaderOf(leader, llog, n, j) && FollowerOf(follower, flog, n, leader.term) && Compatible(llog, flog)
    ensures HasPeer(leader, j) && k < leader.nextIndex[j] && k <= LastIndex(leader)
    ensures var (leader', follower') := Rounds(leader, follower, n, me, j, k);
      && HasPeer(leader', j) && leader'.nextIndex[j] == p + 1
      && var (l, f, ok) := Exchange(leader', follower', n, me, j);
         ok && CaughtUp(l, llog, f, flog', j, p)
    decreases if HasPeer(leader, j) then leader.nextIndex[j] else 0
  {
    hide LeaderOf, FollowerOf, Shaped, Compatible, Exchange, CaughtUp, Matches, LastIndex;
    LeaderFacts(leader, llog, n, j);
    FollowerStarts(follower, flog, n, leader.term);
    if Matches(llog, flog, leader.nextIndex[j]) {
      flog' := RoundSucceeds(leader, llog, follower, flog, n, me, j);
      k, p := 0, leader.nextIndex[j] - 1;
    } else {
      AtOneMatches(llog, flog);
      RoundFails(leader, llog, follower, flog, n, me, j);
      var (leader', follower', _) := Exchange(leader, follower, n, me, j);
      LeaderFacts(leader', llog, n, j);
      k, flog', p := BackOffTerminates(leader', llog, follower', flog, n, me, j);
      k := k + 1;
    }
  }
}
