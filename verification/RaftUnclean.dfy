/**
  Outside clean runs State Machine Safety fails: a run of five servers, written out step by step,
  after which two servers have sent up different commands for index 1.  The one unclean step is the
  AppendEntries of term 2 that overwrites server 1's first entry and leaves its second behind.
*/
module RaftUnclean {
  import opened RaftLog
  import opened RaftHistory
  import opened RaftNode
  import opened RaftCluster
  import opened RaftInvariant
  import opened RaftSafety
  import opened RaftRuns

  // ----- the story -------------------------------------------------------------------------

  const A := Entry(1, 1, "a")
  const B := Entry(2, 1, "b")
  const X := Entry(1, 2, "x")
  const D := Entry(3, 3, "d")
  const ZEROS: seq<int> := [0, 0, 0, 0, 0]
  const QUIET: seq<seq<ApplyMsg>> := [[], [], [], [], []]

  function Server(term: int, votedFor: int, status: Status, logs: seq<Entry>, commit: int, applied: int, next: seq<int>, matched: seq<int>): Node {
    Node(true, term, votedFor, status, logs, commit, applied, next, matched, 0, 0, "")
  }

  function Voter(term: int, votedFor: int, logs: seq<Entry>): Node {
    Server(term, votedFor, Follower, logs, 0, 0, ZEROS, ZEROS)
  }

  /** Server 0 is elected in term 1, takes in a and b, and server 1 copies them. */
  lemma FirstTerm() returns (s: Cluster)
    ensures Reachable(s, false) && s.stream == QUIET
    ensures s.nodes == [Server(1, 0, Leader, [A, B], 0, 0, [1, 1, 1, 1, 1], ZEROS), Voter(1, 0, [A, B]), Voter(1, 0, []),
                        Voter(0, NOBODY, []), Voter(0, NOBODY, [])]
  {
    hide Reachable;
    Starts(5, false);
    s := Init(5);
    assert Fresh(5) == Voter(0, NOBODY, []);
    s := Stands(s, false, 0);
    var ballot := VoteArgs(1, 0, 0, 0);
    assert Ballot(s.nodes[0], 0) == ballot;
    s := VotesAndCounts(s, false, VoteCall(1, ballot), 0, (0, 1));
    s := VotesAndCounts(s, false, VoteCall(2, ballot), 0, (0, 1));
    assert s.nodes[0] == Server(1, 0, Leader, [], 0, 0, [1, 1, 1, 1, 1], ZEROS);
    s := Proposes(s, false, 0, "a");
    s := Proposes(s, false, 0, "b");
    assert s.nodes[0] == Server(1, 0, Leader, [A, B], 0, 0, [1, 1, 1, 1, 1], ZEROS);
    s := FirstCopy(s);
  }

  lemma FirstCopy(s: Cluster) returns (s': Cluster)
    requires Reachable(s, false) && |s.nodes| == 5
    requires s.nodes[0] == Server(1, 0, Leader, [A, B], 0, 0, [1, 1, 1, 1, 1], ZEROS) && s.nodes[1] == Voter(1, 0, [])
    ensures Reachable(s', false) && s'.stream == s.stream && s'.nodes == s.nodes[1 := Voter(1, 0, [A, B])]
  {
    hide Reachable;
    var args := AppendArgs(1, 0, 0, 0, [A, B], 0);
    s' := Beats(s, false, 0);
    assert HeartBeatTo(s.nodes[0], 0, 1).args == args;
    CopiesAll();
    s' := Appends(s', false, AppendCall(|s.rounds|, 1, args));
  }

  lemma CopiesAll()
    ensures AppendEntries(Voter(1, 0, []), AppendArgs(1, 0, 0, 0, [A, B], 0)) == (Voter(1, 0, [A, B]), AppendReply(1, true, 0))
  {
    assert [A, B][1..] == [B] && [B][1..] == [];
    assert [A] + [B] == [A, B] && [] + [A] == [A];
    assert MergeEntries([A, B], 0, []) == Some([A, B]);
    assert MergeEntries([A], 0, [B]) == Some([A, B]);
    assert MergeEntries([], 0, [A, B]) == Some([A, B]);
  }

  /** Server 2, which has neither, is elected in term 2 by servers 3 and 4; server 0 steps down. */
  lemma SecondTerm() returns (s: Cluster)
    ensures Reachable(s, false) && s.stream == QUIET
    ensures s.nodes == [Server(2, NOBODY, Follower, [A, B], 0, 0, [1, 1, 1, 1, 1], ZEROS), Voter(1, 0, [A, B]),
                        Server(2, 2, Leader, [X], 0, 0, [1, 1, 1, 1, 1], ZEROS), Voter(2, 2, []), Voter(2, 2, [])]
  {
    hide Reachable;
    s := FirstTerm();
    s := Stands(s, false, 2);
    var ballot := VoteArgs(2, 2, 0, 0);
    assert Ballot(s.nodes[2], 2) == ballot;
    s := VotesAndCounts(s, false, VoteCall(3, ballot), 2, (2, 2));
    s := VotesAndCounts(s, false, VoteCall(4, ballot), 2, (2, 2));
    s := Votes(s, false, VoteCall(0, ballot));
    assert s.nodes[2] == Server(2, 2, Leader, [], 0, 0, [1, 1, 1, 1, 1], ZEROS);
    s := Proposes(s, false, 2, "x");
    assert s.nodes[2] == Server(2, 2, Leader, [X], 0, 0, [1, 1, 1, 1, 1], ZEROS);
  }

  /** The unclean step: x overwrites a, and b stays behind it. */
  lemma StaleTail() returns (s: Cluster)
    ensures Reachable(s, false) && s.stream == QUIET
    ensures s.nodes == [Server(2, NOBODY, Follower, [A, B], 0, 0, [1, 1, 1, 1, 1], ZEROS), Voter(2, NOBODY, [X, B]),
                        Server(2, 2, Leader, [X], 0, 0, [1, 1, 1, 1, 1], ZEROS), Voter(2, 2, []), Voter(2, 2, [])]
  {
    hide Reachable;
    s := SecondTerm();
    var args, round := AppendArgs(2, 2, 0, 0, [X], 0), |s.rounds|;
    assert HeartBeatTo(s.nodes[2], 2, 1).args == args;
    s := Beats(s, false, 2);
    Overwritten();
    s := Appends(s, false, AppendCall(round, 1, args));
  }

  lemma Overwritten()
    ensures AppendEntries(Voter(1, 0, [A, B]), AppendArgs(2, 2, 0, 0, [X], 0)) == (Voter(2, NOBODY, [X, B]), AppendReply(2, true, 0))
    ensures !CleanAppend(Voter(1, 0, [A, B]), AppendArgs(2, 2, 0, 0, [X], 0))
  {
    var nd, args := Voter(1, 0, [A, B]), AppendArgs(2, 2, 0, 0, [X], 0);
    assert [A, B][0 := X] == [X, B] && [X][1..] == [];
    assert MergeEntries([X, B], 0, []) == Some([X, B]);
    assert MergeEntries([A, B], 0, [X]) == Some([X, B]);
    assert HasSlot(nd, args.entries[0].index) && TermAt(nd, args.entries[0].index) == 1;
  }

  /** Server 0 is elected again, in term 3, still with a and b, and takes in d. */
  lemma ThirdTerm() returns (s: Cluster)
    ensures Reachable(s, false) && s.stream == QUIET
    ensures s.nodes == [Server(3, 0, Leader, [A, B, D], 0, 0, [3, 3, 3, 3, 3], ZEROS), Voter(2, NOBODY, [X, B]),
                        Server(2, 2, Leader, [X], 0, 0, [1, 1, 1, 1, 1], ZEROS), Voter(3, 0, []), Voter(3, 0, [])]
  {
    hide Reachable;
    s := StaleTail();
    s := Stands(s, false, 0);
    var ballot := VoteArgs(3, 0, 2, 1);
    assert Ballot(s.nodes[0], 0) == ballot;
    s := VotesAndCounts(s, false, VoteCall(3, ballot), 0, (0, 3));
    s := VotesAndCounts(s, false, VoteCall(4, ballot), 0, (0, 3));
    assert s.nodes[0] == Server(3, 0, Leader, [A, B], 0, 0, [3, 3, 3, 3, 3], ZEROS);
    s := Proposes(s, false, 0, "d");
    assert [A, B] + [D] == [A, B, D];
  }

  lemma TailMatches()
    ensures AppendEntries(Voter(2, NOBODY, [X, B]), AppendArgs(3, 0, 2, 1, [D], 0)) == (Voter(3, NOBODY, [X, B, D]), AppendReply(3, true, 0))
  {
    assert [X, B] + [D] == [X, B, D] && [D][1..] == [];
    assert MergeEntries([X, B, D], 0, []) == Some([X, B, D]);
    assert MergeEntries([X, B], 0, [D]) == Some([X, B, D]);
  }

  lemma EmptyRefuses()
    ensures AppendEntries(Voter(3, 0, []), AppendArgs(3, 0, 2, 1, [D], 0)) == (Voter(3, 0, []), AppendReply(3, false, 1))
  {
  }

  /** Server 1 matches on b and takes d; server 3 is sent back to index 1. */
  lemma FirstRound() returns (s: Cluster)
    ensures Reachable(s, false) && s.stream == QUIET
    ensures s.nodes == [Server(3, 0, Leader, [A, B, D], 0, 0, [3, 4, 3, 1, 3], [0, 3, 0, 0, 0]), Voter(3, NOBODY, [X, B, D]),
                        Server(2, 2, Leader, [X], 0, 0, [1, 1, 1, 1, 1], ZEROS), Voter(3, 0, []), Voter(3, 0, [])]
  {
    hide Reachable;
    s := ThirdTerm();
    var args, round := AppendArgs(3, 0, 2, 1, [D], 0), |s.rounds|;
    assert [A, B, D][2..] == [D];
    assert HeartBeatTo(s.nodes[0], 0, 1).args == args && HeartBeatTo(s.nodes[0], 0, 3).args == args;
    s := Beats(s, false, 0);
    TailMatches();
    s := AppendsAndCounts(s, false, AppendCall(round, 1, args), 0);
    assert s.nodes[0] == Server(3, 0, Leader, [A, B, D], 0, 0, [3, 4, 3, 3, 3], [0, 3, 0, 0, 0]);
    EmptyRefuses();
    s := AppendsAndCounts(s, false, AppendCall(round, 3, args), 0);
    assert s.nodes[0] == Server(3, 0, Leader, [A, B, D], 0, 0, [3, 4, 3, 1, 3], [0, 3, 0, 0, 0]);
  }

  lemma NothingToAdd(commit: int)
    requires 0 <= commit <= 3
    ensures AppendEntries(Voter(3, NOBODY, [X, B, D]), AppendArgs(3, 0, 3, 3, [], commit)) ==
      (Server(3, NOBODY, Follower, [X, B, D], commit, 0, ZEROS, ZEROS), AppendReply(3, true, 0))
  {
    assert MergeEntries([X, B, D], 0, []) == Some([X, B, D]);
  }

  lemma EmptyCopies()
    ensures AppendEntries(Voter(3, 0, []), AppendArgs(3, 0, 0, 0, [A, B, D], 0)) == (Voter(3, 0, [A, B, D]), AppendReply(3, true, 0))
  {
    var entries, two := [A, B, D], [B, D];
    assert entries[1..] == two && two[1..] == [D] && [D][1..] == [];
    assert MergeEntries([A, B, D], 0, []) == Some([A, B, D]);
    assert [A, B] + [D] == [A, B, D] && [A] + [B] == [A, B] && [] + [A] == [A];
    assert MergeEntries([A, B], 0, [D]) == Some([A, B, D]);
    assert MergeEntries([A], 0, two) == Some([A, B, D]);
  }

  lemma HalfRound() returns (s: Cluster, round: int, three: AppendArgs)
    ensures Reachable(s, false) && s.stream == QUIET
    ensures s.nodes == [Server(3, 0, Leader, [A, B, D], 0, 0, [3, 4, 3, 1, 3], [0, 3, 0, 0, 0]), Voter(3, NOBODY, [X, B, D]),
                        Server(2, 2, Leader, [X], 0, 0, [1, 1, 1, 1, 1], ZEROS), Voter(3, 0, []), Voter(3, 0, [])]
    ensures three == AppendArgs(3, 0, 0, 0, [A, B, D], 0) && AppendCall(round, 3, three) in s.appendCalls
    ensures 0 <= round < |s.rounds| && s.rounds[round].tally.num == 2 && 3 !in s.rounds[round].tally.done
  {
    hide Reachable;
    s := FirstRound();
    round := |s.rounds|;
    var one := AppendArgs(3, 0, 3, 3, [], 0);
    three := AppendArgs(3, 0, 0, 0, [A, B, D], 0);
    assert [A, B, D][3..] == [] && [A, B, D][0..] == [A, B, D];
    assert HeartBeatTo(s.nodes[0], 0, 1).args == one && HeartBeatTo(s.nodes[0], 0, 3).args == three;
    s := Beats(s, false, 0);
    NothingToAdd(0);
    s := AppendsAndCounts(s, false, AppendCall(round, 1, one), 0);
    assert s.nodes[0] == Server(3, 0, Leader, [A, B, D], 0, 0, [3, 4, 3, 1, 3], [0, 3, 0, 0, 0]);
  }

  /** Servers 0, 1 and 3 acknowledge index 3, and the leader commits it. */
  lemma SecondRound() returns (s: Cluster)
    ensures Reachable(s, false) && s.stream == QUIET
    ensures s.nodes == [Server(3, 0, Leader, [A, B, D], 3, 0, [3, 4, 3, 4, 3], [0, 3, 0, 3, 0]), Voter(3, NOBODY, [X, B, D]),
                        Server(2, 2, Leader, [X], 0, 0, [1, 1, 1, 1, 1], ZEROS), Voter(3, 0, [A, B, D]), Voter(3, 0, [])]
  {
    hide Reachable;
    var round, three;
    s, round, three := HalfRound();
    EmptyCopies();
    s := AppendsAndCounts(s, false, AppendCall(round, 3, three), 0);
    assert s.nodes[0] == Server(3, 0, Leader, [A, B, D], 3, 0, [3, 4, 3, 4, 3], [0, 3, 0, 3, 0]);
  }

  lemma ThreeSent(nd: Node, first: Entry)
    requires nd.logs == [first, B, D] && nd.commitIndex == 3 && nd.lastApplied == 0 && nd.snapIndex == 0 && first.index == 1
    ensures GetApplyLogs(nd) == (nd.(lastApplied := 3), [Command(1, first.command), Command(2, "b"), Command(3, "d")])
  {
    var one, two, three := nd.(lastApplied := 1), nd.(lastApplied := 2), nd.(lastApplied := 3);
    assert DrainCommitted(three) == (three, []);
    assert HasSlot(two, 3) && EntryAt(two, 3) == D && two.(lastApplied := 3) == three;
    assert [Command(3, "d")] + [] == [Command(3, "d")] && [Command(2, "b")] + [Command(3, "d")] == [Command(2, "b"), Command(3, "d")];
    assert DrainCommitted(two) == (three, [Command(3, "d")]);
    assert HasSlot(one, 2) && EntryAt(one, 2) == B && one.(lastApplied := 2) == two;
    assert DrainCommitted(one) == (three, [Command(2, "b"), Command(3, "d")]);
    assert HasSlot(nd, 1) && EntryAt(nd, 1) == first;
    assert [Command(1, first.command)] + [Command(2, "b"), Command(3, "d")] == [Command(1, first.command), Command(2, "b"), Command(3, "d")];
  }

  /** The leader sends up a at index 1; server 1, told that 3 is committed, sends up x. */
  lemma UncleanRunDiverges() returns (s: Cluster)
    ensures Reachable(s, false) && |s.stream| == 5
    ensures s.stream[0] == [Command(1, "a"), Command(2, "b"), Command(3, "d")]
    ensures s.stream[1] == [Command(1, "x"), Command(2, "b"), Command(3, "d")]
  {
    hide Reachable, GetApplyLogs;
    s := SecondRound();
    ThreeSent(s.nodes[0], A);
    s := SendsUp(s, false, 0);
    var args, round := AppendArgs(3, 0, 3, 3, [], 3), |s.rounds|;
    assert [A, B, D][3..] == [];
    assert HeartBeatTo(s.nodes[0], 0, 1).args == args;
    s := Beats(s, false, 0);
    NothingToAdd(3);
    s := Appends(s, false, AppendCall(round, 1, args));
    ThreeSent(s.nodes[1], X);
    s := SendsUp(s, false, 1);
  }
}
