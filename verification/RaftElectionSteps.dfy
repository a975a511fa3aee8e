/** Elections keep the invariant, and their assertion never fails. */
module RaftElectionSteps {
  import opened RaftLog
  import opened RaftHistory
  import opened RaftNode
  import opened RaftCluster
  import opened RaftInvariant

  /** Adopting a term: `Meet`, the three-line update every handler and reply starts with. */
  lemma MeetOk(h: History, nd: Node, v: int, t: int)
    requires Sound(h) && 0 <= v < |h.log| && NodeOk(h, nd, v)
    ensures var nd' := Meet(nd, t);
      var h' := Raise(h, v, nd'.term);
      && NodeOk(h', nd', v) && Sound(h') && Grows(h, h') && OnlyTouches(h, h', v)
      && nd'.term >= t && nd'.term >= nd.term
  {
    var nd' := Meet(nd, t);
    RaiseSound(h, v, nd'.term);
    if t > nd.term {
      NothingAhead(h, v, t);
    }
  }

  lemma StepDownOk(h: History, nd: Node, v: int)
    requires Sized(h) && 0 <= v < |h.log| && NodeOk(h, nd, v)
    ensures NodeOk(h, nd.(status := Follower), v)
  {
  }

  /** The rest of the record decides nothing here: a server whose history stays needs only its vote known. */
  lemma VotedForOk(h: History, h': History, nd: Node, v: int, c: int)
    requires Sized(h) && Sized(h') && 0 <= v < |h.log| == |h'.log| && NodeOk(h, nd, v)
    requires h'.term[v] == h.term[v] && h'.log[v] == h.log[v] && h'.reign == h.reign
    requires VoteKnown(h', nd.(votedFor := c), v)
    ensures NodeOk(h', nd.(votedFor := c), v)
  {
  }

  // ----- Elect -----------------------------------------------------------------------------

  lemma StandOk(h: History, nd: Node, v: int)
    requires Sound(h) && 0 <= v < |h.log| && NodeOk(h, nd, v)
    ensures NodeOk(RaftHistory.Elect(h, v), Stand(nd, v), v)
    ensures OnlyTouches(h, RaftHistory.Elect(h, v), v)
  {
  }

  lemma BallotOk(h: History, nd: Node, v: int, j: int)
    requires Sized(h) && 0 <= v < |h.log| && GoodLog(h, v) && NodeOk(h, nd, v) && nd.term >= 0
    requires 0 <= j < |h.log| && j != v
    ensures Sized(RaftHistory.Elect(h, v)) && VoteCallOk(RaftHistory.Elect(h, v), VoteCall(j, Ballot(Stand(nd, v), v)))
  {
    Represented(nd, h.log[v]);
    hide Represents, IndexSpace, VoteKnown, Sourced, TermsUpTo, Leads;
  }

  lemma FreshElectionOk(h: History, v: int)
    requires Sound(h) && 0 <= v < |h.log|
    ensures Sized(RaftHistory.Elect(h, v)) && ElectionOk(RaftHistory.Elect(h, v), (v, h.term[v] + 1), NO_VOTES)
  {
    var t := h.term[v] + 1;
    assert t in h.reign ==> GoodReign(h, t);
  }

  /** What standing for election makes of the server, the history and the calls. */
  ghost predicate Stood(s: Cluster, s': Cluster, i: int) {
    && |s'.nodes| == |s.nodes| && |s'.stream| == |s.stream| && Sized(s.past) && Sized(s'.past)
    && 0 <= i < |s.nodes| && i < |s.past.term|
    && s'.past == RaftHistory.Elect(s.past, i)
    && s'.nodes == s.nodes[i := Stand(s.nodes[i], i)]
    && (forall c | c in s'.voteCalls && c !in s.voteCalls ::
          c == VoteCall(c.to, Ballot(Stand(s.nodes[i], i), i)) && 0 <= c.to < |s.nodes| && c.to != i)
    && s'.voteAnswers == s.voteAnswers
    && s'.elections == s.elections[(i, s.past.term[i] + 1) := NO_VOTES]
    && s'.appendCalls == s.appendCalls && s'.appendAnswers == s.appendAnswers && s'.rounds == s.rounds
    && s'.snapTasks == s.snapTasks && s'.snapCalls == s.snapCalls && s'.snapAnswers == s.snapAnswers
  }

  lemma StoodPast(s: Cluster, s': Cluster, i: int)
    requires PastOk(s) && NodesOk(s) && Stood(s, s', i)
    ensures PastOk(s') && Grows(s.past, s'.past) && NodesOk(s')
  {
    ElectSound(s.past, i);
    assert NodeOk(s.past, s.nodes[i], i);
    StandOk(s.past, s.nodes[i], i);
    SelfAcksStay(s.past, s'.past);
    hide Sound, SelfAcks, NodeOk, Grows;
    NodesStay(s, s', i);
  }

  lemma StoodCalls(s: Cluster, s': Cluster, i: int)
    requires PastOk(s) && NodesOk(s) && BallotsOk(s.past, s.voteCalls, s.voteAnswers)
    requires Stood(s, s', i) && Grows(s.past, s'.past)
    ensures BallotsOk(s'.past, s'.voteCalls, s'.voteAnswers)
  {
    BallotsStay(s.past, s'.past, s.voteCalls, s.voteAnswers);
    assert GoodLog(s.past, i) && NodeOk(s.past, s.nodes[i], i) && s.past.term[i] >= 0;
    assert Sized(s.past);
    hide PastOk, NodesOk, NodeOk, GoodLog, VoteCallOk, Sound, Grows;
    forall c | c in s'.voteCalls ensures VoteCallOk(s'.past, c) {
      if c !in s.voteCalls {
        BallotOk(s.past, s.nodes[i], i, c.to);
      }
    }
  }

  lemma ElectKeys(h: History, i: int)
    requires Sized(h) && 0 <= i < |h.log|
    ensures RaftHistory.Elect(h, i).candidacy.Keys == h.candidacy.Keys + {(i, h.term[i] + 1)}
    ensures RaftHistory.Elect(h, i).reign == h.reign
  {
  }

  lemma ElectTallies(h: History, elections: map<(int, int), Tally>, i: int)
    requires Sound(h) && 0 <= i < |h.log| && TalliesOk(h, elections)
    ensures Sized(RaftHistory.Elect(h, i))
    ensures TalliesOk(RaftHistory.Elect(h, i), elections[(i, h.term[i] + 1) := NO_VOTES])
  {
    ElectSound(h, i);
    FreshElectionOk(h, i);
    ElectKeys(h, i);
    hide Sound, ElectionOk, Grows, TalliesOk, RaftHistory.Elect;
    TalliesStay(h, RaftHistory.Elect(h, i), elections, (i, h.term[i] + 1), NO_VOTES);
  }

  lemma StoodElections(s: Cluster, s': Cluster, i: int)
    requires PastOk(s) && NodesOk(s) && ElectionsOk(s) && Stood(s, s', i) && PastOk(s') && Grows(s.past, s'.past)
    ensures ElectionsOk(s')
  {
    hide PastOk, Sound, NodesOk, Grows, TalliesOk, BallotsOk, RaftHistory.Elect;
    PastSized(s);
    StoodCalls(s, s', i);
    ElectTallies(s.past, s.elections, i);
  }

  lemma StoodInv(s: Cluster, s': Cluster, i: int)
    requires Inv(s) && Stood(s, s', i)
    ensures Inv(s') && Grows(s.past, s'.past)
  {
    StoodPast(s, s', i);
    StoodElections(s, s', i);
    hide PastOk, NodesOk, ElectionsOk, ReplicationOk, SnapshotsOk, Grows;
    SameReplication(s, s');
    SameSnapshots(s, s', i);
  }

  lemma ElectInv(s: Cluster, i: int)
    requires Inv(s) && Up(s, i) && HasPast(s, i)
    ensures Inv(DoElect(s, i)) && Grows(s.past, DoElect(s, i).past)
    ensures DoElect(s, i).nodes[i].alive
  {
    hide Inv, NodeOk, Sound, SelfAcks, Grows;
    InvNode(s, i);
    if s.nodes[i].status != Leader {
      StoodInv(s, DoElect(s, i), i);
    } else {
      NothingNew(s.past, i);
    }
  }

  // ----- DeliverVote -----------------------------------------------------------------------

  /** The history after a granted vote: a repeated vote adds nothing. */
  function Granted(h: History, v: int, c: int): History
    requires Sized(h) && 0 <= v < |h.log|
  {
    if (v, h.term[v]) !in h.vote then CastVote(h, v, c) else h
  }

  lemma GrantedSound(h: History, v: int, c: int)
    requires Sound(h) && 0 <= v < |h.log| && h.term[v] > 0
    requires (c, h.term[v]) in h.candidacy && |h.candidacy[(c, h.term[v])]| > 0 && |h.log[v]| > 0
    requires UpToDate(h.candidacy[(c, h.term[v])], h.log[v])
    ensures Sound(Granted(h, v, c)) && Grows(h, Granted(h, v, c))
  {
    if (v, h.term[v]) !in h.vote {
      CastVoteSound(h, v, c);
    }
  }

  lemma GrantedVote(h: History, nd: Node, v: int, c: int)
    requires Sized(h) && 0 <= v < |h.log| && NodeOk(h, nd, v) && c != NOBODY
    requires nd.votedFor == NOBODY || nd.votedFor == c
    ensures Sized(Granted(h, v, c)) && OnlyTouches(h, Granted(h, v, c), v)
    ensures NodeOk(Granted(h, v, c), nd.(votedFor := c), v)
    ensures (v, nd.term) in Granted(h, v, c).vote && Granted(h, v, c).vote[(v, nd.term)].candidate == c
  {
    VotedForOk(h, Granted(h, v, c), nd, v, c);
  }

  lemma BallotUpToDate(h: History, nd: Node, call: VoteCall)
    requires Sized(h) && VoteCallOk(h, call) && NodeOk(h, nd, call.to) && nd.term == call.args.term
    requires CandidateUpToDate(nd, call.args.lastIndex, call.args.lastTerm)
    ensures |h.log[call.to]| > 0
    ensures UpToDate(h.candidacy[(call.args.candidate, call.args.term)], h.log[call.to])
  {
    Represented(nd, h.log[call.to]);
  }

  /** What a RequestVote makes of the server and the history. */
  ghost predicate VoteAnswered(h: History, h': History, nd': Node, call: VoteCall, reply: VoteReply)
    requires Sized(h) && 0 <= call.to < |h.log|
  {
    && Sound(h') && Grows(h, h') && OnlyTouches(h, h', call.to)
    && h'.reign == h.reign && h'.candidacy == h.candidacy && h'.acks == h.acks
    && NodeOk(h', nd', call.to)
    && (reply.granted ==>
          && reply.term == call.args.term
          && (call.to, reply.term) in h'.vote && h'.vote[(call.to, reply.term)].candidate == call.args.candidate)
  }

  lemma VoteGranted(h: History, nd: Node, call: VoteCall)
    requires Sound(h) && VoteCallOk(h, call) && NodeOk(h, nd, call.to) && nd.term == call.args.term
    requires CandidateUpToDate(nd, call.args.lastIndex, call.args.lastTerm)
    requires nd.votedFor == NOBODY || nd.votedFor == call.args.candidate
    ensures VoteAnswered(h, Granted(h, call.to, call.args.candidate),
                         nd.(votedFor := call.args.candidate), call, VoteReply(nd.term, Normal, true))
  {
    var h' := Granted(h, call.to, call.args.candidate);
    BallotUpToDate(h, nd, call);
    assert nd.term == h.term[call.to];
    hide Sound, Grows, NodeOk, CandidateUpToDate, OnlyTouches, UpToDate;
    GrantedSound(h, call.to, call.args.candidate);
    GrantedVote(h, nd, call.to, call.args.candidate);
    hide VoteCallOk;
    assert h'.reign == h.reign && h'.candidacy == h.candidacy && h'.acks == h.acks;
  }

  lemma VoteMet(h: History, nd: Node, call: VoteCall)
    requires Sound(h) && VoteCallOk(h, call) && NodeOk(h, nd, call.to)
    ensures var met := Meet(nd, call.args.term);
      var r := Raise(h, call.to, met.term);
      && VoteAnswered(h, r, met, call, VoteReply(met.term, Voted, false))
      && VoteCallOk(r, call)
  {
    MeetOk(h, nd, call.to, call.args.term);
    VoteCallStays(h, Raise(h, call.to, Meet(nd, call.args.term).term), call);
  }

  lemma VoteAnsweredTwice(h: History, r: History, h': History, nd: Node, nd': Node, call: VoteCall, reply: VoteReply)
    requires Sized(h) && Sized(r) && 0 <= call.to < |h.log| == |r.log|
    requires VoteAnswered(h, r, nd, call, VoteReply(nd.term, Voted, false)) && VoteAnswered(r, h', nd', call, reply)
    ensures VoteAnswered(h, h', nd', call, reply)
  {
    GrowsTransitive(h, r, h');
    hide Sound, Grows, NodeOk;
  }

  lemma VoteStale(h: History, nd: Node, call: VoteCall)
    requires Sound(h) && VoteCallOk(h, call) && NodeOk(h, nd, call.to)
    ensures Sized(h) && 0 <= call.to < |h.log| && Raise(h, call.to, nd.term) == h
    ensures VoteAnswered(h, h, nd, call, VoteReply(nd.term, Expire, false))
  {
    assert h.term[call.to := nd.term] == h.term;
  }

  lemma RequestVoteOk(h: History, nd: Node, call: VoteCall)
    requires Sound(h) && VoteCallOk(h, call) && NodeOk(h, nd, call.to)
    ensures Sized(h) && 0 <= call.to < |h.log|
    ensures var (nd', reply) := RequestVote(nd, call.args);
      VoteAnswered(h, PastOfVote(h, call.to, nd', call.args, reply.granted), nd', call, reply)
  {
    hide Sound, VoteCallOk, NodeOk, CandidateUpToDate, CastVote;
    VoteStale(h, nd, call);
    var args, v := call.args, call.to;
    if args.term >= nd.term {
      VoteMet(h, nd, call);
      var met := Meet(nd, args.term);
      var r := Raise(h, v, met.term);
      if RequestVote(nd, args).1.granted {
        VoteGranted(r, met, call);
        VoteAnsweredTwice(h, r, Granted(r, v, args.candidate), met, met.(votedFor := args.candidate), call, VoteReply(met.term, Normal, true));
      }
    }
  }

  lemma VoteAnsweredElections(s: Cluster, s': Cluster, call: VoteCall, reply: VoteReply)
    requires PastOk(s) && PastOk(s') && ElectionsOk(s) && Grows(s.past, s'.past)
    requires s'.past.candidacy == s.past.candidacy && s'.past.reign == s.past.reign
    requires VoteAnswerOk(s'.past, VoteAnswer(call, reply))
    requires s'.voteCalls == s.voteCalls && s'.voteAnswers == s.voteAnswers + {VoteAnswer(call, reply)}
    requires s'.elections == s.elections
    ensures ElectionsOk(s')
  {
    hide PastOk, Sound, VoteCallOk, VoteAnswerOk, Grows, TalliesOk;
    PastSized(s);
    PastSized(s');
    BallotsStay(s.past, s'.past, s.voteCalls, s.voteAnswers);
    TalliesSame(s.past, s'.past, s.elections);
  }

  lemma VoteAnsweredInv(s: Cluster, s': Cluster, call: VoteCall, reply: VoteReply)
    requires Inv(s) && call in s.voteCalls && 0 <= call.to < |s.nodes| == |s'.nodes| && |s'.stream| == |s.stream|
    requires VoteAnswered(s.past, s'.past, s'.nodes[call.to], call, reply)
    requires s'.nodes == s.nodes[call.to := s'.nodes[call.to]]
    requires s'.nodes[call.to].snapIndex == s.nodes[call.to].snapIndex
    requires s'.voteCalls == s.voteCalls && s'.voteAnswers == s.voteAnswers + {VoteAnswer(call, reply)}
    requires s'.elections == s.elections
    requires s'.appendCalls == s.appendCalls && s'.appendAnswers == s.appendAnswers && s'.rounds == s.rounds
    requires s'.snapTasks == s.snapTasks && s'.snapCalls == s.snapCalls && s'.snapAnswers == s.snapAnswers
    ensures Inv(s') && Grows(s.past, s'.past)
  {
    assert VoteCallOk(s.past, call);
    SelfAcksStay(s.past, s'.past);
    VoteCallStays(s.past, s'.past, call);
    assert PastOk(s') && Grows(s.past, s'.past) && VoteAnswerOk(s'.past, VoteAnswer(call, reply));
    hide Sound, SelfAcks, NodeOk, VoteCallOk, VoteAnswerOk, Grows, ElectionsOk, ReplicationOk, SnapshotsOk;
    NodesStay(s, s', call.to);
    hide PastOk, NodesOk, OnlyTouches;
    VoteAnsweredElections(s, s', call, reply);
    SameReplication(s, s');
    SameSnapshots(s, s', call.to);
  }

  lemma RequestVoteSame(nd: Node, args: VoteArgs)
    ensures var nd' := RequestVote(nd, args).0;
      nd'.snapIndex == nd.snapIndex && nd'.alive == nd.alive
  {
  }

  lemma DeliverVoteInv(s: Cluster, call: VoteCall)
    requires Inv(s) && Enabled(s, DeliverVote(call)) && HasPast(s, call.to)
    ensures Inv(DoDeliverVote(s, call)) && Grows(s.past, DoDeliverVote(s, call).past)
    ensures DoDeliverVote(s, call).nodes[call.to].alive
  {
    var nd := s.nodes[call.to];
    assert Sound(s.past) && VoteCallOk(s.past, call) && NodeOk(s.past, nd, call.to);
    hide Inv, Sound, VoteCallOk, NodeOk, VoteAnswered, RequestVote, PastOfVote;
    RequestVoteOk(s.past, nd, call);
    RequestVoteSame(nd, call.args);
    VoteAnsweredInv(s, DoDeliverVote(s, call), call, RequestVote(nd, call.args).1);
  }

  // ----- TakeVote --------------------------------------------------------------------------

  /** Counting one more distinct reply moves the counter on, with its reset at the majority. */
  lemma CounterStep(n: nat, k: int)
    requires 0 <= k < n - 1
    ensures Counter(n, k + 1) == (if Counter(n, k) + 1 < n / 2 + 1 then Counter(n, k) + 1 else 0)
    ensures Counter(n, k) + 1 >= n / 2 + 1 <==> k + 1 == Max(1, n / 2)
  {
  }

  lemma PeersCount(n: nat, i: int, js: set<int>)
    requires 0 <= i < n && js <= Peers(n, i)
    ensures |js| <= n - 1
    ensures js < Peers(n, i) ==> |js| < n - 1
  {
    SubsetCount(js, Peers(n, i));
    if js < Peers(n, i) {
      var x :| x in Peers(n, i) && x !in js;
      SubsetCount(js + {x}, Peers(n, i));
    }
  }

  /** Taking in the reply of a peer not heard from yet keeps the counter in step with the replies. */
  lemma CountOk(n: nat, me: int, t: Tally, j: int, num: int, counts: bool)
    requires 0 <= me < n && TallyOk(n, me, t) && j in Peers(n, me) && j !in t.done
    requires num == (if !counts then t.num else if t.num + 1 < n / 2 + 1 then t.num + 1 else 0)
    ensures TallyOk(n, me, Count(t, j, num, counts))
    ensures counts ==> |Count(t, j, num, counts).counted| == |t.counted| + 1
    ensures counts ==> (t.num + 1 >= n / 2 + 1 <==> |t.counted| + 1 == Max(1, n / 2))
  {
    if counts {
      assert t.counted < Peers(n, me);
      PeersCount(n, me, t.counted);
      CounterStep(n, |t.counted|);
    }
  }

  ghost predicate VotedFor(h: History, j: int, k: (int, int)) {
    (j, k.1) in h.vote && h.vote[(j, k.1)].candidate == k.0
  }

  lemma ElectorsElect(h: History, k: (int, int), t: Tally, j: int)
    requires Sized(h) && ElectionOk(h, k, t) && 0 <= k.0 < |h.log|
    requires j in Peers(|h.log|, k.0) && j !in t.done && VotedFor(h, j, k) && VotedFor(h, k.0, k)
    requires t.num + 1 >= |h.log| / 2 + 1
    ensures ElectedBy(h, k.0, k.1, t.counted + {j} + {k.0})
    ensures |t.counted| + 1 == Max(1, |h.log| / 2)
  {
    var n, electors := |h.log|, t.counted + {j} + {k.0};
    CountOk(n, k.0, t, j, 0, true);
    assert |t.counted + {j}| == |t.counted| + 1;
    assert |electors| == |t.counted| + 2;
    assert electors <= Servers(n);
  }

  /**
    When the counter reaches a majority, a majority of servers voted for this candidate in its
    current term, and nobody leads that term yet: the "leader twice" assertion cannot fail.
  */
  lemma MajorityWins(h: History, nd: Node, k: (int, int), t: Tally, j: int)
    requires Sound(h) && ElectionOk(h, k, t) && 0 <= k.0 < |h.log|
    requires NodeOk(h, nd, k.0) && nd.term == k.1 > 0
    requires j in Peers(|h.log|, k.0) && j !in t.done && VotedFor(h, j, k) && VotedFor(h, k.0, k)
    requires t.num + 1 >= |h.log| / 2 + 1
    ensures ElectedBy(h, k.0, k.1, t.counted + {j} + {k.0})
    ensures k.1 !in h.reign && nd.status != Leader
  {
    var electors := t.counted + {j} + {k.0};
    ElectorsElect(h, k, t, j);
    assert nd.status == Leader ==> k.1 in h.reign;
    hide ElectedBy, Sound, NodeOk, TallyOk;
    if k.1 in h.reign {
      OneWinner(h, k.1, k.0, electors);
      assert false;
    }
  }

  lemma LeadIndexSpace(nd: Node, log: Log, n: nat)
    requires Represents(nd, log) && IndexSpace(nd, n)
    ensures Represents(Lead(nd), log) && IndexSpace(Lead(nd), n)
  {
  }

  lemma LeadOk(h: History, nd: Node, c: int, electors: set<int>)
    requires Sized(h) && 0 <= c < |h.log| && NodeOk(h, nd, c)
    requires h.term[c] > 0 && h.term[c] !in h.reign
    ensures Sized(Win(h, c, electors)) && NodeOk(Win(h, c, electors), Lead(nd), c)
    ensures OnlyTouches(h, Win(h, c, electors), c)
  {
    LeadIndexSpace(nd, h.log[c], |h.log|);
    hide Represents, IndexSpace;
  }

  /** What taking in a vote makes of the server, the history and the counter. */
  ghost predicate VoteTaken(h: History, h': History, nd: Node, nd': Node, k: (int, int), t': Tally)
    requires Sized(h) && 0 <= k.0 < |h.log|
  {
    && Sound(h') && Grows(h, h') && OnlyTouches(h, h', k.0) && SelfAcks(h')
    && h'.candidacy == h.candidacy
    && NodeOk(h', nd', k.0) && ElectionOk(h', k, t')
    && (forall u | u in h'.reign && u !in h.reign :: u == k.1 && h'.reign[u].leader == k.0)
    && nd'.alive == nd.alive && nd'.snapIndex == nd.snapIndex
  }

  ghost predicate CanTakeVote(h: History, nd: Node, k: (int, int), j: int, t: Tally) {
    && Sound(h) && SelfAcks(h) && ElectionOk(h, k, t) && 0 <= k.0 < |h.log| && NodeOk(h, nd, k.0)
    && j in Peers(|h.log|, k.0) && j !in t.done
  }

  lemma ElectionCounts(h: History, k: (int, int), t: Tally, t': Tally)
    requires Sized(h) && ElectionOk(h, k, t) && TallyOk(|h.log|, k.0, t')
    requires t.counted <= t'.counted && |t.counted| <= |t'.counted|
    requires forall j | j in t'.counted && j !in t.counted :: VotedFor(h, j, k)
    ensures ElectionOk(h, k, t')
  {
  }

  lemma WonElectionOk(h: History, k: (int, int), t': Tally, electors: set<int>)
    requires Sized(h) && 0 <= k.0 < |h.log| && h.term[k.0] == k.1 && k in h.candidacy
    requires TallyOk(|h.log|, k.0, t') && |t'.counted| == Max(1, |h.log| / 2)
    requires forall j | j in t'.counted :: VotedFor(h, j, k)
    ensures Sized(Win(h, k.0, electors)) && ElectionOk(Win(h, k.0, electors), k, t')
  {
  }

  lemma VoteWins(h: History, nd: Node, k: (int, int), j: int, t: Tally)
    requires CanTakeVote(h, nd, k, j, t) && VotedFor(h, j, k) && nd.term == k.1 && t.num + 1 >= |h.log| / 2 + 1
    ensures nd.status != Leader
    ensures VoteTaken(h, Win(h, k.0, t.counted + {j} + {k.0}), nd, Lead(nd), k, Count(t, j, 0, true))
  {
    var c, n, electors := k.0, |h.log|, t.counted + {j} + {k.0};
    assert GoodCandidacy(h, k);
    MajorityWins(h, nd, k, t, j);
    ElectorsElect(h, k, t, j);
    CountOk(n, c, t, j, 0, true);
    WinSound(h, c, electors);
    WinSelfAcks(h, c, electors);
    LeadOk(h, nd, c, electors);
    WonElectionOk(h, k, Count(t, j, 0, true), electors);
    hide Sound, SelfAcks, Grows, OnlyTouches, NodeOk, ElectionOk, ElectedBy, GoodCandidacy, TallyOk;
  }

  /** A reply of a newer term deposes; it is not counted. */
  lemma VoteDeposes(h: History, nd: Node, k: (int, int), j: int, t: Tally, term: int)
    requires CanTakeVote(h, nd, k, j, t) && term > nd.term
    ensures VoteTaken(h, Raise(h, k.0, term), nd, NewerTerm(nd, term), k, Count(t, j, t.num, false))
  {
    hide Sound, SelfAcks, Grows, OnlyTouches, NodeOk, ElectionOk, TallyOk;
    CanTakeSized(h, nd, k, j, t);
    var h', t' := Raise(h, k.0, term), Count(t, j, t.num, false);
    ElectionTally(h, k, t);
    MeetOk(h, nd, k.0, term);
    CountOk(|h.log|, k.0, t, j, t.num, false);
    ElectionCounts(h, k, t, t');
    ElectionStays(h, h', k, t');
    SelfAcksStay(h, h');
  }

  lemma ElectionTally(h: History, k: (int, int), t: Tally)
    requires Sized(h) && ElectionOk(h, k, t)
    ensures TallyOk(|h.log|, k.0, t)
  {
  }

  /** A vote short of the majority, a refusal and a stale reply change at most the counter. */
  lemma VoteCounted(h: History, nd: Node, k: (int, int), j: int, t: Tally, counts: bool)
    requires CanTakeVote(h, nd, k, j, t)
    requires counts ==> VotedFor(h, j, k) && t.num + 1 < |h.log| / 2 + 1
    ensures VoteTaken(h, h, nd, nd, k, Count(t, j, if counts then t.num + 1 else t.num, counts))
  {
    var t' := Count(t, j, if counts then t.num + 1 else t.num, counts);
    assert OnlyTouches(h, h, k.0) && Sized(h);
    assert Grows(h, h) && TallyOk(|h.log|, k.0, t);
    hide Sound, SelfAcks, Grows, OnlyTouches, NodeOk, ElectionOk;
    CountOk(|h.log|, k.0, t, j, t'.num, counts);
    hide TallyOk;
    ElectionCounts(h, k, t, t');
  }

  /** The same, computed from the reply as the program does. */
  ghost predicate VoteTakenBy(h: History, nd: Node, k: (int, int), j: int, reply: VoteReply, t: Tally)
    requires Sized(h) && 0 <= k.0 < |h.log|
  {
    var (nd', num) := CountVote(nd, |h.log|, reply, t.num);
    var t' := Count(t, j, num, reply.term == nd.term && reply.granted);
    VoteTaken(h, PastOfCount(h, k.0, nd, nd', t'.counted + {k.0}), nd, nd', k, t')
  }

  lemma TakeNewerTerm(h: History, nd: Node, k: (int, int), j: int, reply: VoteReply, t: Tally)
    requires CanTakeVote(h, nd, k, j, t) && reply.term > nd.term
    ensures VoteTakenBy(h, nd, k, j, reply, t)
  {
    VoteDeposes(h, nd, k, j, t, reply.term);
    hide CanTakeVote, VoteTaken;
  }

  lemma TakeMajority(h: History, nd: Node, k: (int, int), j: int, reply: VoteReply, t: Tally)
    requires CanTakeVote(h, nd, k, j, t) && VotedFor(h, j, k) && nd.term == h.term[k.0]
    requires reply.granted && reply.term == nd.term == k.1 && t.num + 1 >= |h.log| / 2 + 1
    ensures VoteTakenBy(h, nd, k, j, reply, t)
  {
    VoteWins(h, nd, k, j, t);
    hide CanTakeVote, VoteTaken, VotedFor;
  }

  lemma TakeOneMore(h: History, nd: Node, k: (int, int), j: int, reply: VoteReply, t: Tally)
    requires CanTakeVote(h, nd, k, j, t) && reply.term <= nd.term && nd.term == h.term[k.0]
    requires reply.granted ==> VotedFor(h, j, k)
    requires reply.term < nd.term || !reply.granted || t.num + 1 < |h.log| / 2 + 1
    requires Sized(h)
    ensures VoteTakenBy(h, nd, k, j, reply, t)
  {
    hide CanTakeVote, VoteTaken, VotedFor, Count, PastOfCount;
    var counts := reply.term == nd.term && reply.granted;
    var num := if counts then t.num + 1 else t.num;
    VoteCounted(h, nd, k, j, t, counts);
    CanTakeSized(h, nd, k, j, t);
    PastSame(h, k.0, nd, Count(t, j, num, counts).counted + {k.0});
  }

  lemma PastSame(h: History, c: int, nd: Node, electors: set<int>)
    requires Sized(h) && 0 <= c < |h.log| && nd.term == h.term[c]
    ensures PastOfCount(h, c, nd, nd, electors) == h
  {
    assert h.term[c := nd.term] == h.term;
  }

  lemma CanTakeSized(h: History, nd: Node, k: (int, int), j: int, t: Tally)
    requires CanTakeVote(h, nd, k, j, t)
    ensures Sized(h) && 0 <= k.0 < |h.log| && nd.term == h.term[k.0]
  {
  }

  lemma TakeVoteOk(h: History, nd: Node, k: (int, int), j: int, reply: VoteReply, t: Tally)
    requires CanTakeVote(h, nd, k, j, t)
    requires reply.granted ==> reply.term == k.1 && VotedFor(h, j, k)
    ensures VoteTakenBy(h, nd, k, j, reply, t)
  {
    hide CanTakeVote, VoteTakenBy, VotedFor;
    CanTakeSized(h, nd, k, j, t);
    if reply.term > nd.term {
      TakeNewerTerm(h, nd, k, j, reply, t);
    } else if reply.term == nd.term && reply.granted && t.num + 1 >= |h.log| / 2 + 1 {
      TakeMajority(h, nd, k, j, reply, t);
    } else {
      TakeOneMore(h, nd, k, j, reply, t);
    }
  }

  lemma VoteTakenElections(s: Cluster, s': Cluster, k: (int, int))
    requires PastOk(s) && PastOk(s') && ElectionsOk(s) && Grows(s.past, s'.past)
    requires s'.past.candidacy == s.past.candidacy
    requires forall u | u in s'.past.reign && u !in s.past.reign :: u == k.1 && s'.past.reign[u].leader == k.0
    requires k in s.elections && k in s'.elections && s'.elections == s.elections[k := s'.elections[k]]
    requires ElectionOk(s'.past, k, s'.elections[k])
    requires s'.voteCalls == s.voteCalls && s'.voteAnswers == s.voteAnswers
    ensures ElectionsOk(s')
  {
    hide PastOk, Sound, BallotsOk, Grows, ElectionOk;
    PastSized(s);
    PastSized(s');
    BallotsStay(s.past, s'.past, s.voteCalls, s.voteAnswers);
    TalliesStay(s.past, s'.past, s.elections, k, s'.elections[k]);
  }

  lemma VoteTakenInv(s: Cluster, s': Cluster, k: (int, int))
    requires Inv(s) && 0 <= k.0 < |s.nodes| == |s'.nodes| && |s'.stream| == |s.stream|
    requires k in s.elections && k in s'.elections && s'.elections == s.elections[k := s'.elections[k]]
    requires VoteTaken(s.past, s'.past, s.nodes[k.0], s'.nodes[k.0], k, s'.elections[k])
    requires s'.nodes == s.nodes[k.0 := s'.nodes[k.0]]
    requires s'.voteCalls == s.voteCalls && s'.voteAnswers == s.voteAnswers
    requires s'.appendCalls == s.appendCalls && s'.appendAnswers == s.appendAnswers && s'.rounds == s.rounds
    requires s'.snapTasks == s.snapTasks && s'.snapCalls == s.snapCalls && s'.snapAnswers == s.snapAnswers
    ensures Inv(s') && Grows(s.past, s'.past)
  {
    assert PastOk(s');
    hide Sound, SelfAcks, NodeOk, ElectionOk, Grows, ElectionsOk, ReplicationOk, SnapshotsOk;
    NodesStay(s, s', k.0);
    hide PastOk, NodesOk, OnlyTouches;
    VoteTakenElections(s, s', k);
    SameReplication(s, s');
    SameSnapshots(s, s', k.0);
  }

  lemma InvVoteAnswer(s: Cluster, a: VoteAnswer)
    requires Inv(s) && a in s.voteAnswers && (a.call.args.candidate, a.call.args.term) in s.elections
    ensures Sized(s.past) && VoteAnswerOk(s.past, a)
    ensures var k := (a.call.args.candidate, a.call.args.term);
      ElectionOk(s.past, k, s.elections[k])
  {
    InvSized(s);
    hide NodesOk, ReplicationOk, SnapshotsOk, Sound, SelfAcks, VoteAnswerOk, ElectionOk;
  }

  lemma CanTakeVoteHolds(s: Cluster, a: VoteAnswer)
    requires Inv(s) && Enabled(s, TakeVote(a))
    ensures var k := (a.call.args.candidate, a.call.args.term);
      && 0 <= k.0 < |s.nodes| && CanTakeVote(s.past, s.nodes[k.0], k, a.call.to, s.elections[k])
      && (a.reply.granted ==> a.reply.term == k.1 && VotedFor(s.past, a.call.to, k))
  {
    hide Inv, NodeOk, Sound, SelfAcks, ElectionOk;
    InvVoteAnswer(s, a);
    InvNode(s, a.call.args.candidate);
  }

  lemma TakenBy(s: Cluster, a: VoteAnswer)
    requires Enabled(s, TakeVote(a)) && HasPast(s, a.call.args.candidate) && Sized(s.past)
    requires var k := (a.call.args.candidate, a.call.args.term);
      k.0 < |s.past.log| == |s.nodes| && VoteTakenBy(s.past, s.nodes[k.0], k, a.call.to, a.reply, s.elections[k])
    ensures var k, s' := (a.call.args.candidate, a.call.args.term), DoTakeVote(s, a);
      k in s'.elections && |s'.nodes| == |s.nodes| && VoteTaken(s.past, s'.past, s.nodes[k.0], s'.nodes[k.0], k, s'.elections[k])
  {
    hide VoteTaken, CountVote, PastOfCount, Count;
  }

  lemma TakenAlive(h: History, h': History, nd: Node, nd': Node, k: (int, int), t': Tally)
    requires Sized(h) && 0 <= k.0 < |h.log| && VoteTaken(h, h', nd, nd', k, t')
    ensures nd'.alive == nd.alive
  {
  }

  lemma TakeVoteInv(s: Cluster, a: VoteAnswer)
    requires Inv(s) && Enabled(s, TakeVote(a)) && HasPast(s, a.call.args.candidate)
    ensures Inv(DoTakeVote(s, a)) && Grows(s.past, DoTakeVote(s, a).past)
    ensures DoTakeVote(s, a).nodes[a.call.args.candidate].alive
  {
    hide Inv, CanTakeVote, VoteTaken, VoteTakenBy, VotedFor, PastOfCount, CountVote, Count;
    var k := (a.call.args.candidate, a.call.args.term);
    InvSized(s);
    CanTakeVoteHolds(s, a);
    TakeVoteOk(s.past, s.nodes[k.0], k, a.call.to, a.reply, s.elections[k]);
    TakenBy(s, a);
    TakenAlive(s.past, DoTakeVote(s, a).past, s.nodes[k.0], DoTakeVote(s, a).nodes[k.0], k, DoTakeVote(s, a).elections[k]);
    VoteTakenInv(s, DoTakeVote(s, a), k);
  }
}
