/**
  One Raft server: its fields and its handlers, as functions from the record before a handler to
  the record after it.  Each handler runs under the server's lock, so it is one atomic step.

  A failed `myAssert` exits the process: such a handler returns a record with `alive` false.  So
  does an index outside `m_logs`, where the program has no defined behaviour.
*/
module RaftNode {
  import opened RaftLog

  datatype Option<T> = None | Some(value: T)

  datatype Status = Follower | Candidate | Leader

  datatype VoteState = Voted | Expire | Normal

  datatype Node = Node(
    alive: bool,
    term: int,
    votedFor: int,
    status: Status,
    logs: seq<Entry>,
    commitIndex: int,
    lastApplied: int,
    nextIndex: seq<int>,
    matchIndex: seq<int>,
    snapIndex: int,
    snapTerm: int,
    snapshot: string)

  const NOBODY := -1
  const STALE_TERM := -100

  datatype VoteArgs = VoteArgs(term: int, candidate: int, lastIndex: int, lastTerm: int)
  datatype VoteReply = VoteReply(term: int, state: VoteState, granted: bool)

  datatype AppendArgs = AppendArgs(
    term: int, leader: int, prevIndex: int, prevTerm: int, entries: seq<Entry>, leaderCommit: int)
  datatype AppendReply = AppendReply(term: int, success: bool, updateNextIndex: int)

  datatype SnapArgs = SnapArgs(term: int, leader: int, lastIndex: int, lastTerm: int, data: string)

  /** A message to the key-value layer. */
  datatype ApplyMsg =
    | Command(index: int, command: string)
    | Snapshot(index: int, term: int, data: string)

  /** What a heartbeat does for one peer. */
  datatype Outgoing = Append(args: AppendArgs) | SendSnapshot | Fails

  function Fresh(n: nat): Node {
    Node(true, 0, NOBODY, Follower, [], 0, 0, seq(n, _ => 0), seq(n, _ => 0), 0, 0, "")
  }

  function Exit(nd: Node): Node {
    nd.(alive := false)
  }

  function Max(a: int, b: int): int {
    if a < b then b else a
  }

  function Min(a: int, b: int): int {
    if a < b then a else b
  }

  // ----- indices ---------------------------------------------------------------------------

  function LastOf(logs: seq<Entry>, snapIndex: int): int {
    if logs == [] then snapIndex else logs[|logs| - 1].index
  }

  function LastIndex(nd: Node): int {
    LastOf(nd.logs, nd.snapIndex)
  }

  function LastTerm(nd: Node): int {
    if nd.logs == [] then nd.snapTerm else nd.logs[|nd.logs| - 1].term
  }

  /** The two assertions of `getSlicesIndexFromLogIndex`, and that `m_logs` has the slot. */
  predicate HasSlot(nd: Node, i: int) {
    nd.snapIndex < i <= LastIndex(nd) && i - nd.snapIndex - 1 < |nd.logs|
  }

  function EntryAt(nd: Node, i: int): Entry
    requires HasSlot(nd, i)
  {
    nd.logs[i - nd.snapIndex - 1]
  }

  predicate KnowsTerm(nd: Node, i: int) {
    i == nd.snapIndex <= LastIndex(nd) || HasSlot(nd, i)
  }

  function TermAt(nd: Node, i: int): int
    requires KnowsTerm(nd, i)
  {
    if i == nd.snapIndex then nd.snapTerm else EntryAt(nd, i).term
  }

  // ----- elections -------------------------------------------------------------------------

  /** `doElection` of a server that does not lead. */
  function Stand(nd: Node, me: int): Node {
    nd.(status := Candidate, term := nd.term + 1, votedFor := me)
  }

  function Ballot(nd: Node, me: int): VoteArgs {
    VoteArgs(nd.term, me, LastIndex(nd), LastTerm(nd))
  }

  function NewerTerm(nd: Node, term: int): Node {
    nd.(status := Follower, term := term, votedFor := NOBODY)
  }

  function Meet(nd: Node, term: int): Node {
    if term > nd.term then NewerTerm(nd, term) else nd
  }

  predicate CandidateUpToDate(nd: Node, index: int, term: int) {
    term > LastTerm(nd) || (term == LastTerm(nd) && index >= LastIndex(nd))
  }

  function RequestVote(nd: Node, args: VoteArgs): (Node, VoteReply) {
    if args.term < nd.term then
      (nd, VoteReply(nd.term, Expire, false))
    else
      var nd := Meet(nd, args.term);
      if !CandidateUpToDate(nd, args.lastIndex, args.lastTerm) then
        (nd, VoteReply(nd.term, Voted, false))
      else if nd.votedFor != NOBODY && nd.votedFor != args.candidate then
        (nd, VoteReply(nd.term, Voted, false))
      else
        (nd.(votedFor := args.candidate), VoteReply(nd.term, Normal, true))
  }

  function Lead(nd: Node): Node {
    nd.(status := Leader,
        nextIndex := seq(|nd.nextIndex|, _ => LastIndex(nd) + 1),
        matchIndex := seq(|nd.matchIndex|, _ => 0))
  }

  /** The reply half of `sendRequestVote`; `votes` is the counter the calls of one election share. */
  function CountVote(nd: Node, n: nat, reply: VoteReply, votes: int): (Node, int) {
    if reply.term > nd.term then
      (NewerTerm(nd, reply.term), votes)
    else if reply.term < nd.term || !reply.granted then
      (nd, votes)
    else if votes + 1 < n / 2 + 1 then
      (nd, votes + 1)
    else if nd.status == Leader then
      (Exit(nd), 0)
    else
      (Lead(nd), 0)
  }

  // ----- replication -----------------------------------------------------------------------

  function Start(nd: Node, command: string): (Node, int, int, bool) {
    if nd.status != Leader then
      (nd, -1, -1, false)
    else
      var index := LastIndex(nd) + 1;
      (nd.(logs := nd.logs + [Entry(index, nd.term, command)]), index, nd.term, true)
  }

  /** What `doHeartBeat` of the leader `me` does for peer j. */
  function HeartBeatTo(nd: Node, me: int, j: int): Outgoing
    requires 0 <= j < |nd.nextIndex|
  {
    var next := nd.nextIndex[j];
    if next < 1 then
      Fails
    else if next <= nd.snapIndex then
      SendSnapshot
    else if !KnowsTerm(nd, next - 1) then
      Fails
    else
      var entries := nd.logs[next - 1 - nd.snapIndex..];
      if next - 1 + |entries| != LastIndex(nd) then
        Fails
      else
        Append(AppendArgs(nd.term, me, next - 1, TermAt(nd, next - 1), entries, nd.commitIndex))
  }

  /** One turn of the merge loop: append, keep, or overwrite in place; nothing is ever cut off. */
  function MergeOne(logs: seq<Entry>, snapIndex: int, e: Entry): Option<seq<Entry>> {
    if e.index > LastOf(logs, snapIndex) then
      Some(logs + [e])
    else
      var k := e.index - snapIndex - 1;
      if !(0 <= k < |logs|) then None
      else if logs[k].term == e.term && logs[k].command != e.command then None
      else if logs[k].term != e.term then Some(logs[k := e])
      else Some(logs)
  }

  function MergeEntries(logs: seq<Entry>, snapIndex: int, entries: seq<Entry>): Option<seq<Entry>>
    decreases |entries|
  {
    if entries == [] then
      Some(logs)
    else
      match MergeOne(logs, snapIndex, entries[0])
      case None => None
      case Some(merged) => MergeEntries(merged, snapIndex, entries[1..])
  }

  /** The index a mismatch sends back: just after the last entry below `index` whose term differs from `term`. */
  function BackOff(nd: Node, prev: int, index: int): int
    requires KnowsTerm(nd, prev) && index <= prev
    decreases index - nd.snapIndex
  {
    if index < nd.snapIndex then prev
    else if KnowsTerm(nd, index) && TermAt(nd, index) != TermAt(nd, prev) then index + 1
    else BackOff(nd, prev, index - 1)
  }

  function Reject(nd: Node, next: int): AppendReply {
    AppendReply(nd.term, false, next)
  }

  function AppendEntries(nd: Node, args: AppendArgs): (Node, AppendReply) {
    if args.term < nd.term then
      (nd, Reject(nd, STALE_TERM))
    else
      var nd := Meet(nd, args.term).(status := Follower);
      if args.prevIndex > LastIndex(nd) then
        (nd, Reject(nd, LastIndex(nd) + 1))
      else if !KnowsTerm(nd, args.prevIndex) then
        (Exit(nd), Reject(nd, nd.snapIndex + 1))
      else if TermAt(nd, args.prevIndex) != args.prevTerm then
        (nd, Reject(nd, BackOff(nd, args.prevIndex, args.prevIndex)))
      else
        match MergeEntries(nd.logs, nd.snapIndex, args.entries)
        case None => (Exit(nd), AppendReply(nd.term, false, 0))
        case Some(logs) =>
          var nd := nd.(logs := logs);
          if LastIndex(nd) < args.prevIndex + |args.entries| then
            (Exit(nd), AppendReply(nd.term, false, 0))
          else
            var commit := if args.leaderCommit > nd.commitIndex then Min(args.leaderCommit, LastIndex(nd)) else nd.commitIndex;
            var nd := nd.(commitIndex := commit);
            if LastIndex(nd) < commit then
              (Exit(nd), AppendReply(nd.term, false, 0))
            else
              (nd, AppendReply(nd.term, true, 0))
  }

  /** The reply half of `sendAppendEntries`; `acks` is the counter the calls of one heartbeat share. */
  function CountAppend(nd: Node, n: nat, j: int, args: AppendArgs, reply: AppendReply, acks: int): (Node, int)
    requires 0 <= j < |nd.nextIndex| && j < |nd.matchIndex|
  {
    if reply.term > nd.term then
      (NewerTerm(nd, reply.term), acks)
    else if reply.term < nd.term || nd.status != Leader then
      (nd, acks)
    else if !reply.success then
      (if reply.updateNextIndex != STALE_TERM then nd.(nextIndex := nd.nextIndex[j := reply.updateNextIndex]) else nd, acks)
    else
      var end := args.prevIndex + |args.entries|;
      var matched := Max(nd.matchIndex[j], end);
      var nd := nd.(matchIndex := nd.matchIndex[j := matched], nextIndex := nd.nextIndex[j := matched + 1]);
      if matched + 1 > LastIndex(nd) + 1 then
        (Exit(nd), acks + 1)
      else if acks + 1 < 1 + n / 2 then
        (nd, acks + 1)
      else
        var commit :=
          if |args.entries| > 0 && args.entries[|args.entries| - 1].term == nd.term then Max(nd.commitIndex, end)
          else nd.commitIndex;
        var nd := nd.(commitIndex := commit);
        (if commit > LastIndex(nd) then Exit(nd) else nd, 0)
  }

  // ----- snapshots and delivery ------------------------------------------------------------

  /** `Snapshot`: the key-value layer has covered the log up to `index`. */
  function TakeSnapshot(nd: Node, index: int, data: string): Node {
    if nd.snapIndex >= index || index > nd.commitIndex then
      nd
    else if !HasSlot(nd, index) then
      Exit(nd)
    else
      var last := LastIndex(nd);
      var nd := nd.(
        logs := nd.logs[index - nd.snapIndex..],
        snapIndex := index,
        snapTerm := EntryAt(nd, index).term,
        commitIndex := Max(nd.commitIndex, index),
        lastApplied := Max(nd.lastApplied, index),
        snapshot := data);
      if |nd.logs| + nd.snapIndex != last then Exit(nd) else nd
  }

  /** The sending half of `leaderSendSnapShot`, which does not look at the server's role. */
  function SnapshotToSend(nd: Node, me: int): SnapArgs {
    SnapArgs(nd.term, me, nd.snapIndex, nd.snapTerm, nd.snapshot)
  }

  /** `InstallSnapshot`, the term it answers (0 when it sets none), and what it sends up. */
  function InstallSnapshot(nd: Node, args: SnapArgs): (Node, int, seq<ApplyMsg>) {
    if args.term < nd.term then
      (nd, nd.term, [])
    else
      var nd := Meet(nd, args.term).(status := Follower);
      if args.lastIndex <= nd.snapIndex then
        (nd, 0, [])
      else if LastIndex(nd) > args.lastIndex && !HasSlot(nd, args.lastIndex) then
        (Exit(nd), 0, [])
      else
        var nd' := nd.(
          logs := if LastIndex(nd) > args.lastIndex then nd.logs[args.lastIndex - nd.snapIndex..] else [],
          commitIndex := Max(nd.commitIndex, args.lastIndex),
          lastApplied := Max(nd.lastApplied, args.lastIndex),
          snapIndex := args.lastIndex,
          snapTerm := args.lastTerm,
          snapshot := args.data);
        (nd', nd'.term, [Snapshot(args.lastIndex, args.lastTerm, args.data)])
  }

  /** The reply half of `leaderSendSnapShot`. */
  function SnapshotAnswered(nd: Node, j: int, args: SnapArgs, term: int): Node
    requires 0 <= j < |nd.nextIndex| && j < |nd.matchIndex|
  {
    if nd.status != Leader || nd.term != args.term then
      nd
    else if term > nd.term then
      NewerTerm(nd, term)
    else
      nd.(matchIndex := nd.matchIndex[j := args.lastIndex], nextIndex := nd.nextIndex[j := args.lastIndex + 1])
  }

  /** The loop of `getApplyLogs`. */
  function DrainCommitted(nd: Node): (Node, seq<ApplyMsg>)
    decreases nd.commitIndex - nd.lastApplied
  {
    if nd.lastApplied >= nd.commitIndex then
      (nd, [])
    else
      var i := nd.lastApplied + 1;
      if !HasSlot(nd, i) || EntryAt(nd, i).index != i then
        (Exit(nd.(lastApplied := i)), [])
      else
        var (rest, msgs) := DrainCommitted(nd.(lastApplied := i));
        (rest, [Command(i, EntryAt(nd, i).command)] + msgs)
  }

  function GetApplyLogs(nd: Node): (Node, seq<ApplyMsg>) {
    if nd.commitIndex > LastIndex(nd) then (Exit(nd), []) else DrainCommitted(nd)
  }

  // ----- a record and the whole log it stands for ------------------------------------------

  /** The record keeps the part of `log` above its snapshot, and the term at the snapshot. */
  ghost predicate Represents(nd: Node, log: Log) {
    && Shaped(log)
    && 0 <= nd.snapIndex < |log|
    && nd.logs == log[nd.snapIndex + 1..]
    && nd.snapTerm == log[nd.snapIndex].term
  }

  /** The index space of a server: contiguous logical indices, and snapshot, applied, commit, last in order. */
  ghost predicate IndexSpace(nd: Node, n: nat) {
    && (forall k | 0 <= k < |nd.logs| :: nd.logs[k].index == nd.snapIndex + 1 + k)
    && 0 <= nd.snapIndex <= nd.lastApplied <= nd.commitIndex <= LastIndex(nd)
    && |nd.nextIndex| == |nd.matchIndex| == n
    && (nd.status == Leader ==> forall j | 0 <= j < n ::
          1 <= nd.nextIndex[j] <= LastIndex(nd) + 1 && nd.matchIndex[j] <= LastIndex(nd))
  }

  lemma Represented(nd: Node, log: Log)
    requires Represents(nd, log)
    ensures LastIndex(nd) == LastIndexOf(log) && LastTerm(nd) == LastTermOf(log)
    ensures forall k | 0 <= k < |nd.logs| :: nd.logs[k].index == nd.snapIndex + 1 + k
    ensures forall i :: KnowsTerm(nd, i) <==> nd.snapIndex <= i < |log|
    ensures forall i | KnowsTerm(nd, i) :: TermAt(nd, i) == log[i].term
    ensures forall i :: HasSlot(nd, i) <==> nd.snapIndex < i < |log|
    ensures forall i | HasSlot(nd, i) :: EntryAt(nd, i) == log[i]
  {
  }

  /** The whole log after the merge loop has run over entries that start at p+1. */
  function Merged(log: Log, p: int, entries: seq<Entry>): Log
    requires 0 <= p < |log|
  {
    log[..p + 1] + entries + (if p + 1 + |entries| < |log| then log[p + 1 + |entries|..] else [])
  }

  lemma MergedAt(log: Log, p: int, entries: seq<Entry>)
    requires 0 <= p < |log|
    ensures |Merged(log, p, entries)| == Max(|log|, p + 1 + |entries|)
    ensures forall i | 0 <= i <= p :: Merged(log, p, entries)[i] == log[i]
    ensures forall i | p < i <= p + |entries| :: Merged(log, p, entries)[i] == entries[i - p - 1]
    ensures forall i | p + |entries| < i < |log| :: Merged(log, p, entries)[i] == log[i]
  {
  }

  /** The entries carry consecutive indices from p+1. */
  ghost predicate Consecutive(p: int, entries: seq<Entry>) {
    forall k | 0 <= k < |entries| :: entries[k].index == p + 1 + k
  }

  /** No entry shares index and term, but not content, with the log: the assertion inside the loop. */
  ghost predicate NoClash(log: Log, p: int, entries: seq<Entry>)
    requires 0 <= p
  {
    forall k | 0 <= k < |entries| && p + 1 + k < |log| :: log[p + 1 + k].term == entries[k].term ==> log[p + 1 + k] == entries[k]
  }

  lemma MergeOneAt(logs: seq<Entry>, snapIndex: int, log: Log, e: Entry)
    requires Shaped(log) && 0 <= snapIndex < e.index <= |log| && logs == log[snapIndex + 1..]
    requires e.index < |log| && log[e.index].term == e.term ==> log[e.index] == e
    ensures MergeOne(logs, snapIndex, e) ==
      Some((if e.index < |log| then log[e.index := e] else log + [e])[snapIndex + 1..])
  {
    assert LastOf(logs, snapIndex) == |log| - 1;
    var k := e.index - snapIndex - 1;
    if e.index == |log| {
      assert (log + [e])[snapIndex + 1..] == logs + [e];
    } else {
      assert logs[k] == log[e.index];
      assert log[e.index := e][snapIndex + 1..] == logs[k := e];
      if log[e.index].term == e.term {
        assert logs[k := e] == logs;
      }
    }
  }

  function MergedFirst(log: Log, p: int, e: Entry): Log
    requires 0 <= p < |log|
  {
    if p + 1 < |log| then log[p + 1 := e] else log + [e]
  }

  lemma MergedRest(log: Log, p: int, entries: seq<Entry>)
    requires 0 <= p < |log| && entries != []
    ensures Merged(MergedFirst(log, p, entries[0]), p + 1, entries[1..]) == Merged(log, p, entries)
  {
  }

  lemma RestMerges(log: Log, p: int, entries: seq<Entry>)
    requires Shaped(log) && 0 <= p < |log| && entries != []
    requires Consecutive(p, entries) && NoClash(log, p, entries)
    ensures Shaped(MergedFirst(log, p, entries[0]))
    ensures Consecutive(p + 1, entries[1..]) && NoClash(MergedFirst(log, p, entries[0]), p + 1, entries[1..])
  {
    var log', rest := MergedFirst(log, p, entries[0]), entries[1..];
    assert entries[0].index == p + 1 + 0;
    forall k | 0 <= k < |rest| ensures rest[k].index == p + 2 + k {
      assert rest[k] == entries[k + 1];
    }
    forall k | 0 <= k < |rest| && p + 2 + k < |log'| && log'[p + 2 + k].term == rest[k].term ensures log'[p + 2 + k] == rest[k] {
      assert rest[k] == entries[k + 1] && log'[p + 2 + k] == log[p + 1 + (k + 1)];
    }
  }

  lemma {:induction false} MergeEntriesIsMerged(logs: seq<Entry>, snapIndex: int, log: Log, p: int, entries: seq<Entry>)
    requires Shaped(log) && 0 <= snapIndex <= p < |log| && logs == log[snapIndex + 1..]
    requires Consecutive(p, entries) && NoClash(log, p, entries)
    ensures MergeEntries(logs, snapIndex, entries) == Some(Merged(log, p, entries)[snapIndex + 1..])
    decreases |entries|
  {
    if entries == [] {
      assert Merged(log, p, entries) == log;
    } else {
      assert entries[0].index == p + 1 + 0;
      MergeOneAt(logs, snapIndex, log, entries[0]);
      RestMerges(log, p, entries);
      var log' := MergedFirst(log, p, entries[0]);
      MergeEntriesIsMerged(log'[snapIndex + 1..], snapIndex, log', p + 1, entries[1..]);
      MergedRest(log, p, entries);
    }
  }

  /** b is where the stretch of prev's term starts, if it starts above the snapshot at lo; else it is prev. */
  ghost predicate StretchStart(log: Log, lo: int, prev: int, b: int)
    requires 0 <= lo <= prev < |log|
  {
    if forall i | lo <= i <= prev :: log[i].term == log[prev].term then b == prev
    else lo < b <= prev && log[b - 1].term != log[prev].term && forall i | b <= i <= prev :: log[i].term == log[prev].term
  }

  /** Exactly what a mismatch sends back: the start of the stretch of the conflicting term, if it starts above the snapshot. */
  lemma {:induction false} BackOffExact(nd: Node, log: Log, prev: int, index: int)
    requires Represents(nd, log) && KnowsTerm(nd, prev) && nd.snapIndex - 1 <= index <= prev < |log|
    requires forall i | index < i <= prev :: log[i].term == log[prev].term
    ensures 0 <= nd.snapIndex <= prev && StretchStart(log, nd.snapIndex, prev, BackOff(nd, prev, index))
    ensures BackOff(nd, prev, index) <= prev
    decreases index - nd.snapIndex
  {
    KnownAbove(nd, prev);
    hide Represents, KnowsTerm, TermAt;
    if index >= nd.snapIndex {
      TermOf(nd, log, index);
      TermOf(nd, log, prev);
      if log[index].term == log[prev].term {
        BackOffExact(nd, log, prev, index - 1);
      }
    }
  }

  lemma KnownAbove(nd: Node, i: int)
    requires KnowsTerm(nd, i)
    ensures nd.snapIndex <= i
  {
  }

  lemma TermOf(nd: Node, log: Log, i: int)
    requires Represents(nd, log) && nd.snapIndex <= i < |log|
    ensures KnowsTerm(nd, i) && TermAt(nd, i) == log[i].term
  {
  }

  lemma LastOfLog(nd: Node, log: Log)
    requires Represents(nd, log)
    ensures LastIndex(nd) == |log| - 1 && 0 <= nd.snapIndex < |log|
  {
  }

  lemma LastIndexKept(nd: Node, nd': Node)
    requires nd'.logs == nd.logs && nd'.snapIndex == nd.snapIndex
    ensures LastIndex(nd') == LastIndex(nd)
  {
  }
}
