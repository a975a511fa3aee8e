/**
  The Raft object: its fields, updated in place, and its handlers with their loops.  Each method is
  proved to compute the function of `RaftNode` the cluster proofs are about.

  `running` is false once an assertion has failed and the process has exited; what the fields then
  hold does not matter any more.
*/
module RaftServer {
  import opened RaftLog
  import opened RaftNode

  /** The counter the calls of one election, or of one heartbeat, share. */
  class Counter {
    var num: int

    constructor ()
      ensures num == 1
    {
      num := 1;
    }
  }

  datatype Outbound = Outbound(to: int, what: Outgoing)

  /** One outbound call for every peer below k, in order, oneself skipped. */
  ghost function HeartBeats(nd: Node, me: int, k: nat): seq<Outbound>
    requires k <= |nd.nextIndex|
  {
    if k == 0 then []
    else if k - 1 == me then HeartBeats(nd, me, k - 1)
    else HeartBeats(nd, me, k - 1) + [Outbound(k - 1, HeartBeatTo(nd, me, k - 1))]
  }

  ghost predicate NoneFails(calls: seq<Outbound>) {
    forall c | c in calls :: !c.what.Fails?
  }

  /** The calls that leave before one fails. */
  ghost function BeforeFailure(calls: seq<Outbound>): seq<Outbound> {
    if calls == [] || calls[0].what.Fails? then [] else [calls[0]] + BeforeFailure(calls[1..])
  }

  class Raft {
    const me: int
    const peers: nat
    const nextIndex: array<int>
    const matchIndex: array<int>
    var running: bool
    var currentTerm: int
    var votedFor: int
    var status: Status
    var logs: seq<Entry>
    var commitIndex: int
    var lastApplied: int
    var lastSnapshotIncludeIndex: int
    var lastSnapshotIncludeTerm: int
    var persister: string

    ghost predicate Valid() {
      nextIndex != matchIndex && nextIndex.Length == matchIndex.Length == peers
    }

    ghost function State(): Node
      reads this, nextIndex, matchIndex
    {
      Node(running, currentTerm, votedFor, status, logs, commitIndex, lastApplied, nextIndex[..], matchIndex[..],
           lastSnapshotIncludeIndex, lastSnapshotIncludeTerm, persister)
    }

    constructor (peers: nat, me: int)
      ensures Valid() && State() == Fresh(peers)
      ensures this.me == me && this.peers == peers
    {
      this.me, this.peers := me, peers;
      nextIndex := new int[peers](_ => 0);
      matchIndex := new int[peers](_ => 0);
      running, currentTerm, votedFor, status := true, 0, NOBODY, Follower;
      logs, commitIndex, lastApplied := [], 0, 0;
      lastSnapshotIncludeIndex, lastSnapshotIncludeTerm, persister := 0, 0, "";
      new;
      assert nextIndex[..] == seq(peers, _ => 0) && matchIndex[..] == seq(peers, _ => 0);
    }

    // ----- indices -------------------------------------------------------------------------

    function GetLastLogIndex(): (i: int)
      reads this, nextIndex, matchIndex
      ensures i == LastIndex(State())
    {
      if |logs| == 0 then lastSnapshotIncludeIndex else logs[|logs| - 1].index
    }

    function GetLastLogTerm(): (t: int)
      reads this, nextIndex, matchIndex
      ensures t == LastTerm(State())
    {
      if |logs| == 0 then lastSnapshotIncludeTerm else logs[|logs| - 1].term
    }

    /** The assertions of `getSlicesIndexFromLogIndex`, and that the slot exists. */
    predicate Stored(index: int)
      reads this, nextIndex, matchIndex
      ensures Stored(index) == HasSlot(State(), index)
    {
      lastSnapshotIncludeIndex < index <= GetLastLogIndex() && index - lastSnapshotIncludeIndex - 1 < |logs|
    }

    predicate Known(index: int)
      reads this, nextIndex, matchIndex
      ensures Known(index) == KnowsTerm(State(), index)
    {
      index == lastSnapshotIncludeIndex <= GetLastLogIndex() || Stored(index)
    }

    function GetLogTermFromLogIndex(index: int): (t: int)
      requires Known(index)
      reads this, nextIndex, matchIndex
      ensures t == TermAt(State(), index)
    {
      if index == lastSnapshotIncludeIndex then lastSnapshotIncludeTerm else logs[index - lastSnapshotIncludeIndex - 1].term
    }

    // ----- elections -----------------------------------------------------------------------

    method AdoptTerm(term: int)
      modifies this
      ensures State() == NewerTerm(old(State()), term)
    {
      status, currentTerm, votedFor := Follower, term, NOBODY;
    }

    /** Starts an election, with its counter and one ballot for every other server; a leader does nothing. */
    method DoElection() returns (votedNum: Counter?, ballots: map<int, VoteArgs>)
      requires Valid()
      modifies this
      ensures if old(status) == Leader then
          State() == old(State()) && votedNum == null && ballots == map[]
        else
          && State() == Stand(old(State()), me)
          && votedNum != null && fresh(votedNum) && votedNum.num == 1
          && ballots.Keys == Servers(peers) - {me}
          && (forall j | j in ballots :: ballots[j] == Ballot(State(), me))
          && status == Candidate && votedFor == me && currentTerm == old(currentTerm) + 1 && logs == old(logs)
          && forall j | j in ballots :: ballots[j] == VoteArgs(currentTerm, me, GetLastLogIndex(), GetLastLogTerm())
    {
      votedNum, ballots := null, map[];
      if status != Leader {
        status, currentTerm, votedFor := Candidate, currentTerm + 1, me;
        votedNum := new Counter();
        for i := 0 to peers
          invariant State() == Stand(old(State()), me) && votedNum.num == 1
          invariant forall j :: j in ballots <==> 0 <= j < i && j != me
          invariant forall j | j in ballots :: ballots[j] == Ballot(State(), me)
        {
          if i != me {
            ballots := ballots[i := VoteArgs(currentTerm, me, GetLastLogIndex(), GetLastLogTerm())];
          }
        }
      }
    }

    method RequestVote(args: VoteArgs) returns (reply: VoteReply)
      modifies this
      ensures (State(), reply) == RaftNode.RequestVote(old(State()), args)
    {
      if args.term < currentTerm {
        return VoteReply(currentTerm, Expire, false);
      }
      if args.term > currentTerm {
        AdoptTerm(args.term);
      }
      var lastTerm, lastIndex := GetLastLogTerm(), GetLastLogIndex();
      if !(args.lastTerm > lastTerm || (args.lastTerm == lastTerm && args.lastIndex >= lastIndex)) {
        return VoteReply(currentTerm, Voted, false);
      }
      if votedFor != NOBODY && votedFor != args.candidate {
        return VoteReply(currentTerm, Voted, false);
      }
      votedFor := args.candidate;
      return VoteReply(currentTerm, Normal, true);
    }

    /** The reply half of `sendRequestVote`. */
    method TakeVote(reply: VoteReply, votedNum: Counter)
      requires Valid()
      modifies this, nextIndex, matchIndex, votedNum
      ensures var (after, num) := CountVote(old(State()), peers, reply, old(votedNum.num));
        running == after.alive && (running ==> State() == after && votedNum.num == num)
    {
      if reply.term > currentTerm {
        AdoptTerm(reply.term);
        return;
      } else if reply.term < currentTerm {
        return;
      }
      if !reply.granted {
        return;
      }
      votedNum.num := votedNum.num + 1;
      if votedNum.num >= peers / 2 + 1 {
        votedNum.num := 0;
        if status == Leader {
          running := false;
          return;
        }
        status := Leader;
        ghost var led := State();
        var last := GetLastLogIndex();
        for i := 0 to nextIndex.Length
          invariant forall j | 0 <= j < i :: nextIndex[j] == last + 1 && matchIndex[j] == 0
          invariant State() == led.(nextIndex := nextIndex[..], matchIndex := matchIndex[..]) && votedNum.num == 0
        {
          nextIndex[i], matchIndex[i] := last + 1, 0;
        }
        assert nextIndex[..] == seq(peers, _ => last + 1) && matchIndex[..] == seq(peers, _ => 0);
      }
    }

    // ----- replication ---------------------------------------------------------------------

    method Start(command: string) returns (newLogIndex: int, newLogTerm: int, isLeader: bool)
      modifies this
      ensures (State(), newLogIndex, newLogTerm, isLeader) == RaftNode.Start(old(State()), command)
    {
      if status != Leader {
        return -1, -1, false;
      }
      var entry := Entry(GetLastLogIndex() + 1, currentTerm, command);
      logs := logs + [entry];
      return entry.index, entry.term, true;
    }

    /** The entries after a slot, copied one by one. */
    method CopyEntries(start: nat) returns (entries: seq<Entry>)
      requires start <= |logs|
      ensures entries == logs[start..]
    {
      entries := [];
      for j := start to |logs|
        invariant entries == logs[start..j]
      {
        entries := entries + [logs[j]];
      }
    }

    /** Sends every other server an AppendEntries or a snapshot task; a failed assertion exits, after the calls before it. */
    method DoHeartBeat() returns (appendNums: Counter?, calls: seq<Outbound>)
      requires Valid()
      modifies this
      ensures old(status) != Leader ==> State() == old(State()) && appendNums == null && calls == []
      ensures old(status) == Leader && old(running) ==>
        && (running <==> NoneFails(HeartBeats(old(State()), me, peers)))
        && calls == BeforeFailure(HeartBeats(old(State()), me, peers))
        && State() == old(State()).(alive := running)
        && appendNums != null && fresh(appendNums) && appendNums.num == 1
    {
      appendNums, calls := null, [];
      if status != Leader {
        return;
      }
      appendNums := new Counter();
      for i := 0 to peers
        invariant State() == old(State()) && calls == HeartBeats(State(), me, i) && NoneFails(calls)
        invariant appendNums != null && fresh(appendNums) && appendNums.num == 1
      {
        if i != me {
          var what := ForPeer(i);
          ghost var sofar := calls + [Outbound(i, what)];
          assert sofar == HeartBeats(State(), me, i + 1);
          if what.Fails? {
            FailsAt(State(), me, i, peers, calls, what);
            running := false;
            return;
          }
          calls := calls + [Outbound(i, what)];
        }
      }
      NothingCut(calls);
    }

    method ForPeer(i: int) returns (what: Outgoing)
      requires Valid() && 0 <= i < peers
      ensures what == HeartBeatTo(State(), me, i)
    {
      if nextIndex[i] < 1 {
        return Fails;
      }
      if nextIndex[i] <= lastSnapshotIncludeIndex {
        return SendSnapshot;
      }
      var prev := nextIndex[i] - 1;
      if !Known(prev) {
        return Fails;
      }
      var prevTerm := GetLogTermFromLogIndex(prev);
      var entries;
      if prev != lastSnapshotIncludeIndex {
        entries := CopyEntries(prev - lastSnapshotIncludeIndex - 1 + 1);
      } else {
        entries := CopyEntries(0);
      }
      if prev + |entries| != GetLastLogIndex() {
        return Fails;
      }
      return Append(AppendArgs(currentTerm, me, prev, prevTerm, entries, commitIndex));
    }

    /** The merge loop of `AppendEntries1`, in place. */
    method Merge(entries: seq<Entry>)
      requires running
      modifies this
      ensures running <==> MergeEntries(old(logs), old(lastSnapshotIncludeIndex), entries).Some?
      ensures match MergeEntries(old(logs), lastSnapshotIncludeIndex, entries)
        case None => !running
        case Some(merged) => State() == old(State()).(logs := merged)
    {
      ghost var goal := MergeEntries(logs, lastSnapshotIncludeIndex, entries);
      for i := 0 to |entries|
        invariant State() == old(State()).(logs := logs)
        invariant MergeEntries(logs, lastSnapshotIncludeIndex, entries[i..]) == goal
      {
        var log := entries[i];
        assert entries[i..][0] == log && entries[i..][1..] == entries[i + 1..];
        if log.index > GetLastLogIndex() {
          logs := logs + [log];
        } else {
          var k := log.index - lastSnapshotIncludeIndex - 1;
          if !(0 <= k < |logs|) {
            running := false;
            return;
          }
          if logs[k].term == log.term && logs[k].command != log.command {
            running := false;
            return;
          }
          if logs[k].term != log.term {
            logs := logs[k := log];
          }
        }
      }
    }

    /** The loop that looks for the index a mismatch sends back. */
    method FindBackOff(prev: int) returns (next: int)
      requires Known(prev)
      ensures next == BackOff(State(), prev, prev)
    {
      next := prev;
      var index := prev;
      while index >= lastSnapshotIncludeIndex
        invariant index <= prev && next == prev
        invariant BackOff(State(), prev, index) == BackOff(State(), prev, prev)
        decreases index - lastSnapshotIncludeIndex
      {
        if Known(index) && GetLogTermFromLogIndex(index) != GetLogTermFromLogIndex(prev) {
          next := index + 1;
          return;
        }
        index := index - 1;
      }
    }

    method AppendEntries1(args: AppendArgs) returns (reply: AppendReply)
      requires running
      modifies this
      ensures var (after, answer) := AppendEntries(old(State()), args);
        running == after.alive && (running ==> State() == after && reply == answer)
    {
      reply := AppendReply(0, false, 0);
      if args.term < currentTerm {
        return AppendReply(currentTerm, false, STALE_TERM);
      }
      if args.term > currentTerm {
        AdoptTerm(args.term);
      }
      status := Follower;
      if args.prevIndex > GetLastLogIndex() {
        return AppendReply(currentTerm, false, GetLastLogIndex() + 1);
      } else if args.prevIndex < lastSnapshotIncludeIndex {
        reply := AppendReply(currentTerm, false, lastSnapshotIncludeIndex + 1);
      }
      if !Known(args.prevIndex) {
        running := false;
        return;
      }
      if GetLogTermFromLogIndex(args.prevIndex) == args.prevTerm {
        Merge(args.entries);
        if !running {
          return;
        }
        if GetLastLogIndex() < args.prevIndex + |args.entries| {
          running := false;
          return;
        }
        if args.leaderCommit > commitIndex {
          commitIndex := Min(args.leaderCommit, GetLastLogIndex());
        }
        if GetLastLogIndex() < commitIndex {
          running := false;
          return;
        }
        return AppendReply(currentTerm, true, 0);
      } else {
        var next := FindBackOff(args.prevIndex);
        return AppendReply(currentTerm, false, next);
      }
    }

    /** The reply half of `sendAppendEntries`. */
    method TakeAppendReply(j: int, args: AppendArgs, reply: AppendReply, appendNums: Counter)
      requires Valid() && 0 <= j < peers && running
      modifies this, nextIndex, matchIndex, appendNums
      ensures var (after, num) := CountAppend(old(State()), peers, j, args, reply, old(appendNums.num));
        running == after.alive && (running ==> State() == after && appendNums.num == num)
    {
      if reply.term > currentTerm {
        AdoptTerm(reply.term);
        return;
      } else if reply.term < currentTerm {
        return;
      }
      if status != Leader {
        return;
      }
      if !reply.success {
        if reply.updateNextIndex != STALE_TERM {
          nextIndex[j] := reply.updateNextIndex;
        }
        return;
      }
      appendNums.num := appendNums.num + 1;
      var end := args.prevIndex + |args.entries|;
      matchIndex[j] := Max(matchIndex[j], end);
      nextIndex[j] := matchIndex[j] + 1;
      if nextIndex[j] > GetLastLogIndex() + 1 {
        running := false;
        return;
      }
      if appendNums.num >= 1 + peers / 2 {
        appendNums.num := 0;
        if |args.entries| > 0 && args.entries[|args.entries| - 1].term == currentTerm {
          commitIndex := Max(commitIndex, end);
        }
        if commitIndex > GetLastLogIndex() {
          running := false;
        }
      }
    }

    // ----- snapshots and delivery ----------------------------------------------------------

    method Snapshot(index: int, snapshot: string)
      requires running
      modifies this
      ensures var after := TakeSnapshot(old(State()), index, snapshot);
        running == after.alive && (running ==> State() == after)
    {
      if lastSnapshotIncludeIndex >= index || index > commitIndex {
        return;
      }
      var last := GetLastLogIndex();
      if !Stored(index) {
        running := false;
        return;
      }
      var term := GetLogTermFromLogIndex(index);
      var truncated := CopyEntries(index - lastSnapshotIncludeIndex);
      lastSnapshotIncludeIndex, lastSnapshotIncludeTerm, logs := index, term, truncated;
      commitIndex, lastApplied := Max(commitIndex, index), Max(lastApplied, index);
      persister := snapshot;
      if |logs| + lastSnapshotIncludeIndex != last {
        running := false;
      }
    }

    /** The sending half of `leaderSendSnapShot`. */
    method LeaderSendSnapShot() returns (args: SnapArgs)
      ensures args == SnapshotToSend(State(), me)
    {
      args := SnapArgs(currentTerm, me, lastSnapshotIncludeIndex, lastSnapshotIncludeTerm, persister);
    }

    /** `InstallSnapshot`: the term it answers, and what it pushes to the key-value layer. */
    method InstallSnapshot(args: SnapArgs) returns (term: int, pushed: seq<ApplyMsg>)
      requires running
      modifies this
      ensures var (after, answer, msgs) := RaftNode.InstallSnapshot(old(State()), args);
        running == after.alive && (running ==> State() == after && term == answer && pushed == msgs)
    {
      term, pushed := 0, [];
      if args.term < currentTerm {
        term := currentTerm;
        return;
      }
      if args.term > currentTerm {
        AdoptTerm(args.term);
      }
      status := Follower;
      if args.lastIndex <= lastSnapshotIncludeIndex {
        return;
      }
      if GetLastLogIndex() > args.lastIndex {
        if !Stored(args.lastIndex) {
          running := false;
          return;
        }
        logs := logs[args.lastIndex - lastSnapshotIncludeIndex..];
      } else {
        logs := [];
      }
      commitIndex, lastApplied := Max(commitIndex, args.lastIndex), Max(lastApplied, args.lastIndex);
      lastSnapshotIncludeIndex, lastSnapshotIncludeTerm := args.lastIndex, args.lastTerm;
      term := currentTerm;
      pushed := [ApplyMsg.Snapshot(args.lastIndex, args.lastTerm, args.data)];
      persister := args.data;
    }

    /** The reply half of `leaderSendSnapShot`. */
    method TakeSnapshotReply(server: int, args: SnapArgs, term: int)
      requires Valid() && 0 <= server < peers
      modifies this, nextIndex, matchIndex
      ensures State() == SnapshotAnswered(old(State()), server, args, term)
    {
      if status != Leader || currentTerm != args.term {
        return;
      }
      if term > currentTerm {
        AdoptTerm(term);
        return;
      }
      matchIndex[server] := args.lastIndex;
      nextIndex[server] := matchIndex[server] + 1;
    }

    method GetApplyLogs() returns (msgs: seq<ApplyMsg>)
      requires running
      modifies this
      ensures var (after, sent) := RaftNode.GetApplyLogs(old(State()));
        running == after.alive && (running ==> State() == after && msgs == sent)
    {
      hide DrainCommitted;
      msgs := [];
      if commitIndex > GetLastLogIndex() {
        running := false;
        return;
      }
      ghost var goal := DrainCommitted(State());
      while lastApplied < commitIndex
        invariant running
        invariant goal.0 == DrainCommitted(State()).0 && goal.1 == msgs + DrainCommitted(State()).1
        decreases commitIndex - lastApplied
      {
        DrainStep(State());
        lastApplied := lastApplied + 1;
        if !Stored(lastApplied) || logs[lastApplied - lastSnapshotIncludeIndex - 1].index != lastApplied {
          running := false;
          return;
        }
        msgs := msgs + [Command(lastApplied, logs[lastApplied - lastSnapshotIncludeIndex - 1].command)];
      }
      DrainDone(State());
    }
  }

  lemma DrainDone(nd: Node)
    requires nd.lastApplied >= nd.commitIndex
    ensures DrainCommitted(nd) == (nd, [])
  {
  }

  lemma DrainStep(nd: Node)
    requires nd.lastApplied < nd.commitIndex
    ensures var i := nd.lastApplied + 1;
      if HasSlot(nd, i) && EntryAt(nd, i).index == i then
        DrainCommitted(nd) ==
          (DrainCommitted(nd.(lastApplied := i)).0, [Command(i, EntryAt(nd, i).command)] + DrainCommitted(nd.(lastApplied := i)).1)
      else !DrainCommitted(nd).0.alive
  {
  }

  /** Once a call has failed the whole heartbeat fails. */
  lemma {:induction false} MoreFails(nd: Node, me: int, k: nat, n: nat)
    requires k <= n <= |nd.nextIndex| && !NoneFails(HeartBeats(nd, me, k))
    ensures !NoneFails(HeartBeats(nd, me, n))
    decreases n
  {
    if k < n {
      MoreFails(nd, me, k, n - 1);
      var c :| c in HeartBeats(nd, me, n - 1) && c.what.Fails?;
      assert c in HeartBeats(nd, me, n);
    }
  }

  /** What a failing call makes of the heartbeat: the calls before it leave, and it fails. */
  lemma FailsAt(nd: Node, me: int, i: nat, n: nat, calls: seq<Outbound>, what: Outgoing)
    requires i < n <= |nd.nextIndex| && NoneFails(calls) && what.Fails?
    requires HeartBeats(nd, me, i + 1) == calls + [Outbound(i, what)]
    ensures !NoneFails(HeartBeats(nd, me, n)) && BeforeFailure(HeartBeats(nd, me, n)) == calls
  {
    hide HeartBeats, BeforeFailure;
    assert (calls + [Outbound(i, what)])[|calls|] in calls + [Outbound(i, what)];
    MoreFails(nd, me, i + 1, n);
    MoreBeats(nd, me, i + 1, n);
    CutAt(calls, Outbound(i, what), HeartBeats(nd, me, n));
  }

  lemma {:induction false} MoreBeats(nd: Node, me: int, k: nat, n: nat)
    requires k <= n <= |nd.nextIndex|
    ensures HeartBeats(nd, me, k) <= HeartBeats(nd, me, n)
    decreases n
  {
    if k < n {
      MoreBeats(nd, me, k, n - 1);
    }
  }

  /** What leaves of calls that start with a run of good ones and then a failing one: the good ones. */
  lemma {:induction false} CutAt(good: seq<Outbound>, bad: Outbound, calls: seq<Outbound>)
    requires NoneFails(good) && bad.what.Fails? && good + [bad] <= calls
    ensures BeforeFailure(calls) == good
    decreases |good|
  {
    if good != [] {
      assert calls[0] == good[0] && good[0] in good;
      assert forall c | c in good[1..] :: c in good;
      CutAt(good[1..], bad, calls[1..]);
    } else {
      assert calls[0] == bad;
    }
  }

  lemma {:induction false} NothingCut(calls: seq<Outbound>)
    requires NoneFails(calls)
    ensures BeforeFailure(calls) == calls
    decreases |calls|
  {
    if calls != [] {
      assert calls[0] in calls && forall c | c in calls[1..] :: c in calls;
      NothingCut(calls[1..]);
    }
  }
}
