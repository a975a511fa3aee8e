/** What every run keeps, clean or not: the invariant, and what lets an untouched part keep it. */
module RaftInvariant {
  import opened RaftLog
  import opened RaftHistory
  import opened RaftNode
  import opened RaftCluster

  // ----- servers ---------------------------------------------------------------------------

  /** `votedFor` is the first vote of the server's current term, if it cast one. */
  ghost predicate VoteKnown(h: History, nd: Node, v: int) {
    if nd.votedFor == NOBODY then
      (v, nd.term) !in h.vote
    else
      (v, nd.term) in h.vote && h.vote[(v, nd.term)].candidate == nd.votedFor
  }

  /** Server v leads its term, and its log is the log of that reign. */
  ghost predicate Leads(h: History, v: int)
    requires Sized(h) && 0 <= v < |h.log|
  {
    var t := h.term[v];
    t > 0 && t in h.reign && h.reign[t].leader == v && h.reign[t].log == h.log[v]
  }

  ghost predicate NodeOk(h: History, nd: Node, v: int)
    requires Sized(h) && 0 <= v < |h.log|
  {
    && nd.term == h.term[v]
    && Represents(nd, h.log[v])
    && IndexSpace(nd, |h.log|)
    && VoteKnown(h, nd, v)
    && (nd.status == Leader ==> Leads(h, v))
  }

  // ----- elections -------------------------------------------------------------------------

  /** The value of a shared counter after k counted replies: it starts at 1 and is reset at a majority. */
  function Counter(n: nat, k: int): int {
    if k > 0 && k >= n / 2 then k - n / 2 else 1 + k
  }

  ghost predicate TallyOk(n: nat, me: int, t: Tally) {
    t.counted <= t.done && t.counted <= Peers(n, me) && t.num == Counter(n, |t.counted|)
  }

  ghost predicate VoteCallOk(h: History, call: VoteCall)
    requires Sized(h)
  {
    var args := call.args;
    var k := (args.candidate, args.term);
    && 0 <= call.to < |h.log| && 0 <= args.candidate < |h.log| && call.to != args.candidate
    && k in h.candidacy && |h.candidacy[k]| > 0
    && args.lastIndex == LastIndexOf(h.candidacy[k]) && args.lastTerm == LastTermOf(h.candidacy[k])
    && args.term > 0
  }

  ghost predicate VoteAnswerOk(h: History, a: VoteAnswer)
    requires Sized(h)
  {
    && VoteCallOk(h, a.call)
    && (a.reply.granted ==>
          && a.reply.term == a.call.args.term
          && (a.call.to, a.reply.term) in h.vote
          && h.vote[(a.call.to, a.reply.term)].candidate == a.call.args.candidate)
  }

  ghost predicate ElectionOk(h: History, k: (int, int), t: Tally)
    requires Sized(h)
  {
    && k in h.candidacy
    && TallyOk(|h.log|, k.0, t)
    && (forall j | j in t.counted :: (j, k.1) in h.vote && h.vote[(j, k.1)].candidate == k.0)
    && (k.1 in h.reign && h.reign[k.1].leader == k.0 ==> |t.counted| > 0 && |t.counted| >= |h.log| / 2)
  }

  // ----- replication -----------------------------------------------------------------------

  ghost predicate RoundOk(h: History, r: Round)
    requires Sized(h)
  {
    && r.term > 0 && r.term in h.reign && h.reign[r.term].leader == r.leader
    && 0 <= r.leader < |h.log|
    && 0 <= r.end < |h.reign[r.term].log|
    && TallyOk(|h.log|, r.leader, r.tally)
    && forall j | j in r.tally.counted :: Ack(j, r.term, r.end) in h.acks
  }

  /** An AppendEntries carries a stretch of the reign's log, and its end is the end of its heartbeat. */
  ghost predicate AppendCallOk(h: History, rounds: seq<Round>, call: AppendCall)
    requires Sized(h)
  {
    var args := call.args;
    && 0 <= call.round < |rounds|
    && var r := rounds[call.round];
       && args.term == r.term && args.leader == r.leader
       && 0 <= call.to < |h.log| && call.to != r.leader && 0 <= r.leader < |h.log|
       && r.term > 0 && r.term in h.reign && h.reign[r.term].leader == r.leader
       && Stretch(h.reign[r.term].log, args, r.end)
       && args.leaderCommit <= r.end
  }

  ghost predicate Stretch(log: Log, args: AppendArgs, end: int) {
    && 0 <= args.prevIndex
    && args.prevIndex + |args.entries| == end < |log|
    && args.prevTerm == log[args.prevIndex].term
    && forall k | 0 <= k < |args.entries| :: args.entries[k] == log[args.prevIndex + 1 + k]
  }

  ghost predicate AppendAnswerOk(h: History, rounds: seq<Round>, a: AppendAnswer)
    requires Sized(h)
  {
    var args := a.call.args;
    && AppendCallOk(h, rounds, a.call)
    && a.reply.term >= args.term
    && (a.reply.success ==> a.reply.term == args.term && Ack(a.call.to, args.term, args.prevIndex + |args.entries|) in h.acks)
    && (!a.reply.success && a.reply.term == args.term ==> 1 <= a.reply.updateNextIndex <= args.prevIndex)
    && (a.reply.term > args.term ==> a.reply.updateNextIndex == STALE_TERM)
  }

  /** A leader acknowledges every entry it appends in its own term. */
  ghost predicate SelfAcks(h: History) {
    forall t, i | t in h.reign && t > 0 && 0 <= i < |h.reign[t].log| && h.reign[t].log[i].term == t ::
      Ack(h.reign[t].leader, t, i) in h.acks
  }

  // ----- snapshots -------------------------------------------------------------------------

  ghost predicate SnapTaskOk(n: nat, task: SnapTask) {
    0 <= task.from < n && 0 <= task.to < n
  }

  ghost predicate SnapCallOk(h: History, nodes: seq<Node>, call: SnapCall)
    requires Sized(h)
  {
    var args := call.args;
    && SnapTaskOk(|h.log|, call.task) && |nodes| == |h.log|
    && |call.covered| == args.lastIndex + 1 > 0
    && args.lastTerm == LastTermOf(call.covered)
    && Shaped(call.covered) && Sourced(h, call.covered) && TermsUpTo(call.covered, args.term)
    && args.lastIndex <= nodes[call.task.from].snapIndex
  }

  // ----- the invariant ---------------------------------------------------------------------

  ghost predicate PastOk(s: Cluster) {
    && Sound(s.past) && SelfAcks(s.past)
    && |s.nodes| == |s.stream| == |s.past.log|
  }

  ghost predicate NodesOk(s: Cluster)
    requires PastOk(s)
  {
    forall v | 0 <= v < |s.nodes| :: NodeOk(s.past, s.nodes[v], v)
  }

  ghost predicate BallotsOk(h: History, calls: set<VoteCall>, answers: set<VoteAnswer>)
    requires Sized(h)
  {
    && (forall c | c in calls :: VoteCallOk(h, c))
    && (forall a | a in answers :: VoteAnswerOk(h, a))
  }

  ghost predicate TalliesOk(h: History, elections: map<(int, int), Tally>)
    requires Sized(h)
  {
    && elections.Keys == h.candidacy.Keys
    && (forall k | k in elections :: ElectionOk(h, k, elections[k]))
  }

  ghost predicate ElectionsOk(s: Cluster)
    requires PastOk(s)
  {
    BallotsOk(s.past, s.voteCalls, s.voteAnswers) && TalliesOk(s.past, s.elections)
  }

  ghost predicate ReplicationOk(s: Cluster)
    requires PastOk(s)
  {
    && (forall c | c in s.appendCalls :: AppendCallOk(s.past, s.rounds, c))
    && (forall a | a in s.appendAnswers :: AppendAnswerOk(s.past, s.rounds, a))
    && (forall r | 0 <= r < |s.rounds| :: RoundOk(s.past, s.rounds[r]))
  }

  ghost predicate SnapshotsOk(s: Cluster)
    requires PastOk(s)
  {
    && (forall t | t in s.snapTasks :: SnapTaskOk(|s.nodes|, t))
    && (forall c | c in s.snapCalls :: SnapCallOk(s.past, s.nodes, c))
    && (forall a | a in s.snapAnswers :: SnapCallOk(s.past, s.nodes, a.call))
  }

  ghost predicate Inv(s: Cluster) {
    PastOk(s) && NodesOk(s) && ElectionsOk(s) && ReplicationOk(s) && SnapshotsOk(s)
  }

  lemma PastSized(s: Cluster)
    requires PastOk(s)
    ensures Sized(s.past) && Sound(s.past) && SelfAcks(s.past) && |s.nodes| == |s.stream| == |s.past.log|
  {
  }

  lemma InvSized(s: Cluster)
    requires Inv(s)
    ensures Sized(s.past) && Sound(s.past) && SelfAcks(s.past) && |s.nodes| == |s.stream| == |s.past.log|
  {
  }

  lemma InvNode(s: Cluster, i: int)
    requires Inv(s) && 0 <= i < |s.nodes|
    ensures Sized(s.past) && Sound(s.past) && SelfAcks(s.past) && |s.nodes| == |s.stream| == |s.past.log|
    ensures NodeOk(s.past, s.nodes[i], i) && s.nodes[i].term == s.past.term[i]
  {
  }

  lemma InitInv(n: nat)
    requires n > 0
    ensures Inv(Init(n))
  {
    OriginSound(n);
  }

  // ----- what a step by server i leaves alone ----------------------------------------------

  /** The history of everyone but i is as it was. */
  ghost predicate OnlyTouches(h: History, h': History, i: int) {
    && |h'.log| == |h.log| && |h'.term| == |h.term| == |h.log|
    && (forall u | 0 <= u < |h.log| && u != i ::
          && h'.term[u] == h.term[u] && h'.log[u] == h.log[u]
          && ((u, h.term[u]) in h'.vote ==> (u, h.term[u]) in h.vote))
    && (forall t | t in h.reign && h.reign[t].leader != i :: t in h'.reign && h'.reign[t].log == h.reign[t].log)
  }

  lemma NothingNew(h: History, i: int)
    requires Sized(h) && 0 <= i < |h.log|
    ensures Grows(h, h) && OnlyTouches(h, h, i)
  {
  }

  lemma NodeStays(h: History, h': History, nd: Node, u: int, i: int)
    requires Sized(h) && Sized(h') && 0 <= u < |h.log| && u != i
    requires NodeOk(h, nd, u) && Grows(h, h') && OnlyTouches(h, h', i)
    ensures NodeOk(h', nd, u)
  {
  }

  lemma NodesStay(s: Cluster, s': Cluster, i: int)
    requires PastOk(s) && NodesOk(s) && PastOk(s') && 0 <= i < |s.nodes|
    requires Grows(s.past, s'.past) && OnlyTouches(s.past, s'.past, i)
    requires s'.nodes == s.nodes[i := s'.nodes[i]] && |s'.nodes| == |s.nodes|
    requires NodeOk(s'.past, s'.nodes[i], i)
    ensures NodesOk(s')
  {
    forall u | 0 <= u < |s'.nodes| ensures NodeOk(s'.past, s'.nodes[u], u) {
      if u != i {
        assert NodeOk(s.past, s.nodes[u], u);
        NodeStays(s.past, s'.past, s.nodes[u], u, i);
      }
    }
  }

  lemma VoteCallStays(h: History, h': History, call: VoteCall)
    requires Sized(h) && Sized(h') && Grows(h, h') && VoteCallOk(h, call)
    ensures VoteCallOk(h', call)
  {
  }

  lemma VoteAnswerStays(h: History, h': History, a: VoteAnswer)
    requires Sized(h) && Sized(h') && Grows(h, h') && VoteAnswerOk(h, a)
    ensures VoteAnswerOk(h', a)
  {
  }

  /** No reign is new, or the new reign is accounted for. */
  lemma ElectionStays(h: History, h': History, k: (int, int), t: Tally)
    requires Sized(h) && Sized(h') && Grows(h, h') && ElectionOk(h, k, t)
    requires k.1 in h'.reign && k.1 !in h.reign ==> h'.reign[k.1].leader != k.0
    ensures ElectionOk(h', k, t)
  {
    assert k.1 in h.reign ==> ReignGrows(k.1, h.reign[k.1], h'.reign[k.1]);
  }

  lemma BallotsStay(h: History, h': History, calls: set<VoteCall>, answers: set<VoteAnswer>)
    requires Sized(h) && Sized(h') && Grows(h, h') && BallotsOk(h, calls, answers)
    ensures BallotsOk(h', calls, answers)
  {
    forall c | c in calls ensures VoteCallOk(h', c) {
      VoteCallStays(h, h', c);
    }
    forall a | a in answers ensures VoteAnswerOk(h', a) {
      VoteAnswerStays(h, h', a);
    }
  }

  /** One election's counter moved; any new reign is the reign of that election. */
  lemma TalliesStay(h: History, h': History, elections: map<(int, int), Tally>, k: (int, int), t: Tally)
    requires Sized(h) && Sized(h') && Grows(h, h') && TalliesOk(h, elections)
    requires h'.candidacy.Keys == h.candidacy.Keys + {k} && ElectionOk(h', k, t)
    requires forall u | u in h'.reign && u !in h.reign :: u == k.1 && h'.reign[u].leader == k.0
    ensures TalliesOk(h', elections[k := t])
  {
    hide Grows, ElectionOk, Sized;
    forall k' | k' in elections && k' != k ensures ElectionOk(h', k', elections[k']) {
      assert ElectionOk(h, k', elections[k']);
      if k'.1 in h'.reign && k'.1 !in h.reign {
        assert k'.1 == k.1;
        assert h'.reign[k'.1].leader == k.0;
        assert k'.0 != k.0;
      }
      ElectionStays(h, h', k', elections[k']);
    }
  }

  lemma TalliesSame(h: History, h': History, elections: map<(int, int), Tally>)
    requires Sized(h) && Sized(h') && Grows(h, h') && TalliesOk(h, elections)
    requires h'.candidacy.Keys == h.candidacy.Keys && h'.reign.Keys == h.reign.Keys
    ensures TalliesOk(h', elections)
  {
    hide Grows, ElectionOk, Sized;
    forall k | k in elections ensures ElectionOk(h', k, elections[k]) {
      assert ElectionOk(h, k, elections[k]);
      ElectionStays(h, h', k, elections[k]);
    }
  }

  ghost predicate RoundsGrow(rs: seq<Round>, rs': seq<Round>) {
    && |rs| <= |rs'|
    && forall r | 0 <= r < |rs| :: rs'[r].leader == rs[r].leader && rs'[r].term == rs[r].term && rs'[r].end == rs[r].end
  }

  lemma RoundStays(h: History, h': History, r: Round)
    requires Sized(h) && Sized(h') && Grows(h, h') && RoundOk(h, r)
    ensures RoundOk(h', r)
  {
    assert ReignGrows(r.term, h.reign[r.term], h'.reign[r.term]);
  }

  lemma AppendCallStays(h: History, h': History, rs: seq<Round>, rs': seq<Round>, call: AppendCall)
    requires Sized(h) && Sized(h') && Grows(h, h') && RoundsGrow(rs, rs') && AppendCallOk(h, rs, call)
    ensures AppendCallOk(h', rs', call)
  {
    var t := rs[call.round].term;
    assert ReignGrows(t, h.reign[t], h'.reign[t]);
  }

  lemma ReplicationStays(s: Cluster, s': Cluster)
    requires PastOk(s) && ReplicationOk(s) && PastOk(s') && Grows(s.past, s'.past) && RoundsGrow(s.rounds, s'.rounds)
    requires forall c | c in s'.appendCalls :: c in s.appendCalls || AppendCallOk(s'.past, s'.rounds, c)
    requires forall a | a in s'.appendAnswers :: a in s.appendAnswers || AppendAnswerOk(s'.past, s'.rounds, a)
    requires forall r | 0 <= r < |s'.rounds| ::
      (r < |s.rounds| && s'.rounds[r] == s.rounds[r]) || RoundOk(s'.past, s'.rounds[r])
    ensures ReplicationOk(s')
  {
    forall c | c in s'.appendCalls ensures AppendCallOk(s'.past, s'.rounds, c) {
      if c in s.appendCalls { AppendCallStays(s.past, s'.past, s.rounds, s'.rounds, c); }
    }
    forall a | a in s'.appendAnswers ensures AppendAnswerOk(s'.past, s'.rounds, a) {
      if a in s.appendAnswers {
        assert AppendAnswerOk(s.past, s.rounds, a);
        AppendCallStays(s.past, s'.past, s.rounds, s'.rounds, a.call);
      }
    }
    forall r | 0 <= r < |s'.rounds| ensures RoundOk(s'.past, s'.rounds[r]) {
      if r < |s.rounds| && s'.rounds[r] == s.rounds[r] {
        assert RoundOk(s.past, s.rounds[r]);
        RoundStays(s.past, s'.past, s.rounds[r]);
      }
    }
  }

  lemma SnapCallStays(h: History, h': History, nodes: seq<Node>, nodes': seq<Node>, call: SnapCall)
    requires Sized(h) && Sized(h') && Grows(h, h') && SnapCallOk(h, nodes, call)
    requires |nodes'| == |nodes| && forall v | 0 <= v < |nodes| :: nodes[v].snapIndex <= nodes'[v].snapIndex
    ensures SnapCallOk(h', nodes', call)
  {
    SourcedGrows(h, h', call.covered);
  }

  lemma SnapshotsStay(s: Cluster, s': Cluster)
    requires PastOk(s) && SnapshotsOk(s) && PastOk(s') && Grows(s.past, s'.past)
    requires |s'.nodes| == |s.nodes| && forall v | 0 <= v < |s.nodes| :: s.nodes[v].snapIndex <= s'.nodes[v].snapIndex
    requires forall t | t in s'.snapTasks :: t in s.snapTasks || SnapTaskOk(|s.nodes|, t)
    requires forall c | c in s'.snapCalls :: c in s.snapCalls || SnapCallOk(s'.past, s'.nodes, c)
    requires forall a | a in s'.snapAnswers :: a in s.snapAnswers || a.call in s.snapCalls
    ensures SnapshotsOk(s')
  {
    forall c | c in s'.snapCalls ensures SnapCallOk(s'.past, s'.nodes, c) {
      if c in s.snapCalls { SnapCallStays(s.past, s'.past, s.nodes, s'.nodes, c); }
    }
    forall a | a in s'.snapAnswers ensures SnapCallOk(s'.past, s'.nodes, a.call) {
      assert SnapCallOk(s.past, s.nodes, a.call);
      SnapCallStays(s.past, s'.past, s.nodes, s'.nodes, a.call);
    }
  }

  // The parts a step does not touch at all.

  lemma SameElections(s: Cluster, s': Cluster)
    requires PastOk(s) && ElectionsOk(s) && PastOk(s') && Grows(s.past, s'.past)
    requires s'.voteCalls == s.voteCalls && s'.voteAnswers == s.voteAnswers && s'.elections == s.elections
    requires s'.past.candidacy.Keys == s.past.candidacy.Keys && s'.past.reign.Keys == s.past.reign.Keys
    ensures ElectionsOk(s')
  {
    BallotsStay(s.past, s'.past, s.voteCalls, s.voteAnswers);
    TalliesSame(s.past, s'.past, s.elections);
  }

  lemma SameReplication(s: Cluster, s': Cluster)
    requires PastOk(s) && ReplicationOk(s) && PastOk(s') && Grows(s.past, s'.past)
    requires s'.appendCalls == s.appendCalls && s'.appendAnswers == s.appendAnswers && s'.rounds == s.rounds
    ensures ReplicationOk(s')
  {
    ReplicationStays(s, s');
  }

  lemma SameSnapshots(s: Cluster, s': Cluster, i: int)
    requires PastOk(s) && SnapshotsOk(s) && PastOk(s') && Grows(s.past, s'.past)
    requires s'.snapTasks == s.snapTasks && s'.snapCalls == s.snapCalls && s'.snapAnswers == s.snapAnswers
    requires 0 <= i < |s.nodes| && |s'.nodes| == |s.nodes| && s'.nodes == s.nodes[i := s'.nodes[i]]
    requires s.nodes[i].snapIndex <= s'.nodes[i].snapIndex
    ensures SnapshotsOk(s')
  {
    SnapshotsStay(s, s');
  }

  // ----- self acknowledgement over the history operations ----------------------------------

  lemma SelfAcksStay(h: History, h': History)
    requires SelfAcks(h) && h'.reign == h.reign && h.acks <= h'.acks
    ensures SelfAcks(h')
  {
  }

  lemma WinSelfAcks(h: History, c: int, electors: set<int>)
    requires Sound(h) && SelfAcks(h) && 0 <= c < |h.log| && h.term[c] !in h.reign
    ensures SelfAcks(Win(h, c, electors))
  {
    assert GoodLog(h, c);
  }
}
