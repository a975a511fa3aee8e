/** Compaction, snapshot transfer and delivery keep the invariant, and none of their assertions fails. */
module RaftSnapshotSteps {
  import opened RaftLog
  import opened RaftHistory
  import opened RaftNode
  import opened RaftCluster
  import opened RaftInvariant
  import opened RaftElectionSteps
  import opened RaftReplicationSteps

  /** A step that changes one record and nothing else the invariant looks at. */
  ghost predicate OnlyRecord(s: Cluster, s': Cluster, i: int) {
    && 0 <= i < |s.nodes| == |s'.nodes| && |s'.stream| == |s.stream| && s'.past == s.past
    && Sized(s.past) && i < |s.past.log|
    && s'.nodes == s.nodes[i := s'.nodes[i]] && s.nodes[i].snapIndex <= s'.nodes[i].snapIndex
    && NodeOk(s.past, s'.nodes[i], i)
    && s'.voteCalls == s.voteCalls && s'.voteAnswers == s.voteAnswers && s'.elections == s.elections
    && s'.appendCalls == s.appendCalls && s'.appendAnswers == s.appendAnswers && s'.rounds == s.rounds
    && s'.snapTasks == s.snapTasks && s'.snapCalls == s.snapCalls && s'.snapAnswers == s.snapAnswers
  }

  lemma OnlyRecordInv(s: Cluster, s': Cluster, i: int)
    requires Inv(s) && OnlyRecord(s, s', i)
    ensures Inv(s')
  {
    NothingNew(s.past, i);
    hide Sound, SelfAcks, NodeOk, Grows, OnlyTouches, ElectionsOk, ReplicationOk, SnapshotsOk;
    PastSized(s);
    NodesStay(s, s', i);
    SameElections(s, s');
    SameReplication(s, s');
    SameSnapshots(s, s', i);
  }

  // ----- Compact ---------------------------------------------------------------------------

  /** The record that keeps less of the log. */
  lemma Cut(nd: Node, log: Log, index: int)
    requires Represents(nd, log) && nd.snapIndex < index < |log|
    ensures 0 <= index - nd.snapIndex <= |nd.logs| && nd.logs[index - nd.snapIndex..] == log[index + 1..]
    ensures HasSlot(nd, index) && EntryAt(nd, index) == log[index]
  {
  }

  lemma TakeSnapshotIs(nd: Node, log: Log, n: nat, index: int, data: string)
    requires Represents(nd, log) && IndexSpace(nd, n)
    ensures var nd' := TakeSnapshot(nd, index, data);
      if nd.snapIndex < index <= nd.commitIndex then
        && index < |log|
        && nd' == nd.(logs := log[index + 1..], snapIndex := index, snapTerm := log[index].term,
                      lastApplied := Max(nd.lastApplied, index), snapshot := data)
      else
        nd' == nd
  {
    hide HasSlot, EntryAt, Represents;
    LastOfLog(nd, log);
    if nd.snapIndex < index <= nd.commitIndex {
      Cut(nd, log, index);
    }
  }

  lemma CompactOk(h: History, nd: Node, v: int, index: int, data: string)
    requires Sized(h) && 0 <= v < |h.log| && NodeOk(h, nd, v)
    ensures var nd' := TakeSnapshot(nd, index, data);
      NodeOk(h, nd', v) && nd'.alive == nd.alive && nd.snapIndex <= nd'.snapIndex
  {
    TakeSnapshotIs(nd, h.log[v], |h.log|, index, data);
    hide TakeSnapshot, Leads;
    LastOfLog(nd, h.log[v]);
  }

  lemma CompactInv(s: Cluster, i: int, index: int, data: string)
    requires Inv(s) && Up(s, i)
    ensures Inv(DoCompact(s, i, index, data))
    ensures DoCompact(s, i, index, data).nodes[i].alive
  {
    hide Inv, NodeOk, Sound, SelfAcks, TakeSnapshot;
    InvNode(s, i);
    CompactOk(s.past, s.nodes[i], i, index, data);
    OnlyRecordInv(s, DoCompact(s, i, index, data), i);
  }

  // ----- SendSnapshot ----------------------------------------------------------------------

  lemma PrefixGood(h: History, log: Log, k: int, t: int)
    requires Good(h, log, t) && 0 <= k < |log|
    ensures Good(h, log[..k + 1], t)
  {
  }

  lemma SentOk(h: History, nodes: seq<Node>, task: SnapTask)
    requires Sound(h) && Sized(h) && |nodes| == |h.log| && SnapTaskOk(|h.log|, task)
    requires NodeOk(h, nodes[task.from], task.from)
    ensures var nd := nodes[task.from];
      && 0 <= nd.snapIndex < |h.log[task.from]|
      && SnapCallOk(h, nodes, SnapCall(task, SnapshotToSend(nd, task.from), h.log[task.from][..nd.snapIndex + 1]))
  {
    var v := task.from;
    assert GoodLog(h, v);
    LastOfLog(nodes[v], h.log[v]);
    PrefixGood(h, h.log[v], nodes[v].snapIndex, h.term[v]);
    hide Sound, IndexSpace, VoteKnown, Leads, Sourced, TermsUpTo;
  }

  lemma SendSnapshotInv(s: Cluster, task: SnapTask)
    requires Inv(s) && Enabled(s, Step.SendSnapshot(task)) && HasPast(s, task.from)
    ensures Inv(DoSendSnapshot(s, task))
    ensures DoSendSnapshot(s, task).nodes[task.from].alive
  {
    hide Sound, SelfAcks, NodeOk, VoteCallOk, VoteAnswerOk, ElectionOk, AppendCallOk, AppendAnswerOk, RoundOk, SnapCallOk, SnapshotToSend;
    InvNode(s, task.from);
    SentOk(s.past, s.nodes, task);
  }

  // ----- DeliverSnapshot -------------------------------------------------------------------

  lemma CoveredAt(log: Log, covered: Log)
    ensures var log' := Covered(log, covered);
      && |log'| == Max(|log|, |covered|)
      && (forall i | 0 <= i < |covered| :: log'[i] == covered[i])
      && (forall i | |covered| <= i < |log| :: log'[i] == log[i])
      && FromEither(log', log, covered)
      && log'[|covered|..] == if |log| > |covered| then log[|covered|..] else []
  {
  }

  /** The record after a snapshot is installed, for the log it then stands for. */
  function Installed(nd: Node, log: Log, args: SnapArgs): Node
    requires 0 <= args.lastIndex < |log|
  {
    nd.(logs := log[args.lastIndex + 1..],
        commitIndex := Max(nd.commitIndex, args.lastIndex),
        lastApplied := Max(nd.lastApplied, args.lastIndex),
        snapIndex := args.lastIndex, snapTerm := args.lastTerm, snapshot := args.data)
  }

  lemma InstallsIs(nd: Node, log: Log, call: SnapCall)
    requires Represents(nd, log) && nd.status == Follower && nd.term == call.args.term
    requires |call.covered| == call.args.lastIndex + 1 && nd.snapIndex < call.args.lastIndex
    ensures |Covered(log, call.covered)| == Max(|log|, |call.covered|) > call.args.lastIndex
    ensures InstallSnapshot(nd, call.args) ==
      (Installed(nd, Covered(log, call.covered), call.args), nd.term, [Snapshot(call.args.lastIndex, call.args.lastTerm, call.args.data)])
  {
    var args := call.args;
    hide HasSlot, EntryAt, Represents, Covered;
    CoveredAt(log, call.covered);
    LastOfLog(nd, log);
    assert Meet(nd, args.term).(status := Follower) == nd;
    if LastIndex(nd) > args.lastIndex {
      Cut(nd, log, args.lastIndex);
    }
  }

  lemma InstalledRepresents(nd: Node, log: Log, n: nat, call: SnapCall)
    requires Represents(nd, log) && IndexSpace(nd, n) && nd.status == Follower
    requires |call.covered| == call.args.lastIndex + 1 && nd.snapIndex < call.args.lastIndex
    requires Shaped(call.covered) && call.args.lastTerm == LastTermOf(call.covered)
    requires |Covered(log, call.covered)| > call.args.lastIndex
    ensures var nd' := Installed(nd, Covered(log, call.covered), call.args);
      Represents(nd', Covered(log, call.covered)) && IndexSpace(nd', n)
  {
    CoveredAt(log, call.covered);
    hide Covered;
    LastOfLog(nd, log);
    LastOfLog(Installed(nd, Covered(log, call.covered), call.args), Covered(log, call.covered));
  }

  /** What an InstallSnapshot makes of the server and the history. */
  ghost predicate SnapshotTaken(h: History, h': History, nd: Node, nd': Node, to: int)
    requires Sized(h) && 0 <= to < |h.log|
  {
    && Sound(h') && Grows(h, h') && OnlyTouches(h, h', to)
    && h'.reign == h.reign && h'.candidacy == h.candidacy && h'.acks == h.acks
    && NodeOk(h', nd', to) && nd'.alive == nd.alive && nd.snapIndex <= nd'.snapIndex
  }

  /** A server, in the call's term, that the call will install its snapshot on. */
  ghost predicate Installs(h: History, nodes: seq<Node>, nd: Node, call: SnapCall) {
    && Sound(h) && SnapCallOk(h, nodes, call) && NodeOk(h, nd, call.task.to)
    && nd.status == Follower && nd.term == call.args.term && nd.snapIndex < call.args.lastIndex
  }

  lemma InstallKeeps(h: History, v: int, log: Log)
    requires Sound(h) && Sized(h) && 0 <= v < |h.log| && Good(h, log, h.term[v])
    ensures var h' := Install(h, v, log);
      && Sound(h') && Grows(h, h') && OnlyTouches(h, h', v)
      && h'.reign == h.reign && h'.candidacy == h.candidacy && h'.acks == h.acks
  {
    hide Sound, Grows, Shaped, Sourced, TermsUpTo;
    InstallSound(h, v, log);
  }

  lemma CoveredGood(h: History, nodes: seq<Node>, nd: Node, call: SnapCall)
    requires Installs(h, nodes, nd, call)
    ensures Sized(h) && 0 <= call.task.to < |h.log| && |call.covered| == call.args.lastIndex + 1
    ensures Good(h, Covered(h.log[call.task.to], call.covered), h.term[call.task.to])
  {
    var v := call.task.to;
    assert GoodLog(h, v) && Good(h, h.log[v], h.term[v]) && Good(h, call.covered, h.term[v]);
    CoveredAt(h.log[v], call.covered);
    hide *;
    EitherGood(h, Covered(h.log[v], call.covered), h.log[v], call.covered, h.term[v]);
  }

  lemma InstalledNode(h: History, nodes: seq<Node>, nd: Node, call: SnapCall)
    requires Installs(h, nodes, nd, call) && Sized(h) && 0 <= call.task.to < |h.log|
    requires |Covered(h.log[call.task.to], call.covered)| > call.args.lastIndex
    ensures Sized(Install(h, call.task.to, Covered(h.log[call.task.to], call.covered)))
    ensures var log := Covered(h.log[call.task.to], call.covered);
      NodeOk(Install(h, call.task.to, log), Installed(nd, log, call.args), call.task.to)
  {
    InstalledRepresents(nd, h.log[call.task.to], |h.log|, call);
    hide Represents, IndexSpace, Covered, Sound, Sourced, TermsUpTo;
  }

  lemma InstallsFacts(h: History, nodes: seq<Node>, nd: Node, call: SnapCall)
    requires Installs(h, nodes, nd, call)
    ensures Sized(h) && Sound(h) && 0 <= call.task.to < |h.log| && Represents(nd, h.log[call.task.to])
    ensures nd.status == Follower && nd.term == call.args.term == h.term[call.task.to]
    ensures |call.covered| == call.args.lastIndex + 1 > 0 && nd.snapIndex < call.args.lastIndex
  {
  }

  lemma InstallTaken(h: History, nodes: seq<Node>, nd: Node, call: SnapCall)
    requires Installs(h, nodes, nd, call)
    ensures Sized(h) && 0 <= call.task.to < |h.log|
    ensures var (nd', term, msgs) := InstallSnapshot(nd, call.args);
      && nd'.term == nd.term && msgs != []
      && SnapshotTaken(h, Install(h, call.task.to, Covered(h.log[call.task.to], call.covered)), nd, nd', call.task.to)
  {
    hide Installs, Represents, Covered, Good, Sound, NodeOk, Grows, OnlyTouches, InstallSnapshot, Install;
    InstallsFacts(h, nodes, nd, call);
    CoveredGood(h, nodes, nd, call);
    InstallKeeps(h, call.task.to, Covered(h.log[call.task.to], call.covered));
    InstallsIs(nd, h.log[call.task.to], call);
    InstalledNode(h, nodes, nd, call);
  }

  /** What the handler comes to, with the history updated as the step does. */
  ghost predicate SnapshotOutcome(h: History, nd: Node, call: SnapCall)
    requires Sized(h) && 0 <= call.task.to < |h.log|
  {
    var (nd', term, msgs) := InstallSnapshot(nd, call.args);
    SnapshotTaken(h, PastOfInstall(h, call.task.to, nd', call.covered, msgs != []), nd, nd', call.task.to)
  }

  lemma SamePastInstall(h: History, v: int, nd: Node, covered: Log)
    requires Sized(h) && 0 <= v < |h.log| && nd.term == h.term[v]
    ensures PastOfInstall(h, v, nd, covered, false) == h
    ensures PastOfInstall(h, v, nd, covered, true) == Install(h, v, Covered(h.log[v], covered))
  {
    assert h.term[v := nd.term] == h.term;
  }

  lemma SnapshotInTerm(h: History, nodes: seq<Node>, nd: Node, call: SnapCall)
    requires Sound(h) && Sized(h) && 0 <= call.task.to < |h.log| && SnapCallOk(h, nodes, call) && NodeOk(h, nd, call.task.to)
    requires nd.status == Follower && nd.term == call.args.term == h.term[call.task.to]
    ensures SnapshotOutcome(h, nd, call)
  {
    hide Sound, SnapCallOk, NodeOk, Grows, OnlyTouches, PastOfInstall, Represents;
    SamePastInstall(h, call.task.to, nd, call.covered);
    NothingNew(h, call.task.to);
    assert Meet(nd, call.args.term).(status := Follower) == nd;
    if nd.snapIndex < call.args.lastIndex {
      InstallInTerm(h, nodes, nd, call);
    }
  }

  lemma InstallInTerm(h: History, nodes: seq<Node>, nd: Node, call: SnapCall)
    requires Installs(h, nodes, nd, call) && Sized(h) && 0 <= call.task.to < |h.log|
    ensures SnapshotOutcome(h, nd, call)
  {
    hide Installs, InstallSnapshot, SnapshotTaken, PastOfInstall;
    InstallsFacts(h, nodes, nd, call);
    InstallTaken(h, nodes, nd, call);
    SamePastInstall(h, call.task.to, InstallSnapshot(nd, call.args).0, call.covered);
  }

  lemma SnapshotStale(h: History, nd: Node, call: SnapCall)
    requires Sound(h) && Sized(h) && 0 <= call.task.to < |h.log| && NodeOk(h, nd, call.task.to) && nd.term == h.term[call.task.to]
    requires call.args.term < nd.term
    ensures SnapshotOutcome(h, nd, call)
  {
    hide Sound, NodeOk, Grows, OnlyTouches, PastOfInstall;
    SamePastInstall(h, call.task.to, nd, call.covered);
    NothingNew(h, call.task.to);
  }

  lemma SnapshotMeets(nd: Node, args: SnapArgs)
    requires args.term >= nd.term
    ensures InstallSnapshot(nd, args) == InstallSnapshot(Meet(nd, args.term).(status := Follower), args)
  {
  }

  lemma SnapshotMet(h: History, nd: Node, v: int, t: int)
    requires Sound(h) && Sized(h) && 0 <= v < |h.log| && NodeOk(h, nd, v) && t >= nd.term
    ensures var met := Meet(nd, t).(status := Follower);
      var r := Raise(h, v, met.term);
      && Sound(r) && Sized(r) && Grows(h, r) && OnlyTouches(h, r, v) && NodeOk(r, met, v) && met.term == t == r.term[v]
  {
    hide Sound, NodeOk, Grows, OnlyTouches;
    MeetOk(h, nd, v, t);
    StepDownOk(Raise(h, v, Meet(nd, t).term), Meet(nd, t), v);
  }

  lemma SnapshotTakenAfter(h: History, r: History, h': History, nd: Node, met: Node, nd': Node, to: int)
    requires Sized(h) && Sized(r) && 0 <= to < |h.log| == |r.log|
    requires Grows(h, r) && OnlyTouches(h, r, to) && r.reign == h.reign && r.candidacy == h.candidacy && r.acks == h.acks
    requires SnapshotTaken(r, h', met, nd', to) && met.alive == nd.alive && met.snapIndex == nd.snapIndex
    ensures SnapshotTaken(h, h', nd, nd', to)
  {
    hide Sound, Grows, NodeOk;
    GrowsTransitive(h, r, h');
  }

  lemma SnapshotOk(h: History, nodes: seq<Node>, nd: Node, call: SnapCall)
    requires Sound(h) && Sized(h) && 0 <= call.task.to < |h.log| && SnapCallOk(h, nodes, call) && NodeOk(h, nd, call.task.to)
    requires nd.term == h.term[call.task.to]
    ensures SnapshotOutcome(h, nd, call)
  {
    hide Sound, SnapCallOk, NodeOk, SnapshotOutcome, Grows, OnlyTouches;
    var v := call.task.to;
    if call.args.term < nd.term {
      SnapshotStale(h, nd, call);
    } else {
      var met := Meet(nd, call.args.term).(status := Follower);
      var r := Raise(h, v, met.term);
      SnapshotMet(h, nd, v, call.args.term);
      SnapCallStays(h, r, nodes, nodes, call);
      SnapshotInTerm(r, nodes, met, call);
      SnapshotOutcomeMet(h, nd, call);
    }
  }

  lemma SnapshotOutcomeMet(h: History, nd: Node, call: SnapCall)
    requires Sized(h) && 0 <= call.task.to < |h.log| && call.args.term >= nd.term
    requires var met := Meet(nd, call.args.term).(status := Follower);
      var r := Raise(h, call.task.to, met.term);
      Grows(h, r) && OnlyTouches(h, r, call.task.to) && SnapshotOutcome(r, met, call)
    ensures SnapshotOutcome(h, nd, call)
  {
    hide Grows, OnlyTouches, InstallSnapshot, SnapshotTaken, Covered;
    var v := call.task.to;
    var met := Meet(nd, call.args.term).(status := Follower);
    var r := Raise(h, v, met.term);
    SnapshotMeets(nd, call.args);
    var (nd', term, msgs) := InstallSnapshot(nd, call.args);
    assert r.term[v := nd'.term] == h.term[v := nd'.term];
    SnapshotTakenAfter(h, r, PastOfInstall(r, v, nd', call.covered, msgs != []), nd, met, nd', v);
  }

  /** What delivering a snapshot makes of the cluster. */
  ghost predicate SnapshotDelivered(s: Cluster, s': Cluster, call: SnapCall) {
    var i := call.task.to;
    && 0 <= i < |s.nodes| == |s'.nodes| && |s'.stream| == |s.stream|
    && Sized(s.past) && i < |s.past.log|
    && s'.nodes == s.nodes[i := s'.nodes[i]]
    && SnapshotTaken(s.past, s'.past, s.nodes[i], s'.nodes[i], i)
    && call in s.snapCalls
    && (forall a | a in s'.snapAnswers && a !in s.snapAnswers :: a.call == call)
    && s'.snapTasks == s.snapTasks && s'.snapCalls == s.snapCalls
    && s'.voteCalls == s.voteCalls && s'.voteAnswers == s.voteAnswers && s'.elections == s.elections
    && s'.appendCalls == s.appendCalls && s'.appendAnswers == s.appendAnswers && s'.rounds == s.rounds
  }

  lemma DeliveredPast(s: Cluster, s': Cluster, call: SnapCall)
    requires Inv(s) && SnapshotDelivered(s, s', call)
    ensures PastOk(s') && Grows(s.past, s'.past) && NodesOk(s')
    ensures s'.past.reign == s.past.reign && s'.past.candidacy == s.past.candidacy
    ensures forall v | 0 <= v < |s.nodes| :: s.nodes[v].snapIndex <= s'.nodes[v].snapIndex
  {
    SelfAcksStay(s.past, s'.past);
    hide Sound, SelfAcks, NodeOk, Grows, OnlyTouches, ElectionsOk, ReplicationOk, SnapshotsOk;
    PastSized(s);
    SoundSized(s'.past);
    GrowsSized(s.past, s'.past);
    NodesStay(s, s', call.task.to);
  }

  lemma DeliveredInv(s: Cluster, s': Cluster, call: SnapCall)
    requires Inv(s) && SnapshotDelivered(s, s', call)
    ensures Inv(s') && Grows(s.past, s'.past)
  {
    hide PastOk, NodesOk, ElectionsOk, ReplicationOk, SnapshotsOk, Grows, SnapshotTaken;
    DeliveredPast(s, s', call);
    PastSized(s');
    SameElections(s, s');
    SameReplication(s, s');
    SnapshotsStay(s, s');
  }

  lemma InvSnapCall(s: Cluster, call: SnapCall)
    requires Inv(s) && call in s.snapCalls
    ensures Sized(s.past) && SnapCallOk(s.past, s.nodes, call) && 0 <= call.task.to < |s.past.log| && 0 <= call.task.from < |s.past.log|
  {
  }

  lemma TakenAlive(h: History, h': History, nd: Node, nd': Node, to: int)
    requires Sized(h) && 0 <= to < |h.log| && SnapshotTaken(h, h', nd, nd', to)
    ensures nd'.alive == nd.alive
  {
  }

  lemma DeliverSnapshotInv(s: Cluster, call: SnapCall)
    requires Inv(s) && Enabled(s, DeliverSnapshot(call)) && HasPast(s, call.task.to)
    ensures Inv(DoDeliverSnapshot(s, call)) && Grows(s.past, DoDeliverSnapshot(s, call).past)
    ensures DoDeliverSnapshot(s, call).nodes[call.task.to].alive
  {
    hide Inv, Sound, SelfAcks, NodeOk, SnapCallOk, SnapshotTaken, InstallSnapshot, PastOfInstall, Grows;
    var i := call.task.to;
    InvNode(s, i);
    InvSnapCall(s, call);
    SnapshotOk(s.past, s.nodes, s.nodes[i], call);
    TakenAlive(s.past, DoDeliverSnapshot(s, call).past, s.nodes[i], DoDeliverSnapshot(s, call).nodes[i], i);
    DeliveredInv(s, DoDeliverSnapshot(s, call), call);
  }

  // ----- TakeSnapshotAnswer ----------------------------------------------------------------

  lemma SnapshotAnsweredOk(h: History, nodes: seq<Node>, a: SnapAnswer)
    requires Sound(h) && Sized(h) && SnapCallOk(h, nodes, a.call)
    requires NodeOk(h, nodes[a.call.task.from], a.call.task.from) && nodes[a.call.task.from].alive
    requires HasPeer(nodes[a.call.task.from], a.call.task.to)
    ensures var i := a.call.task.from;
      TakenIn(h, nodes[i], SnapshotAnswered(nodes[i], a.call.task.to, a.call.args, a.term), i)
  {
    hide Sound, NodeOk, SnapCallOk, TakenIn, LastIndex;
    SnapIndexBounds(h, nodes, a.call);
    var i, j, args := a.call.task.from, a.call.task.to, a.call.args;
    var nd := nodes[i];
    if nd.status != Leader || nd.term != args.term {
      CountedSame(h, nd, nd, i);
    } else if a.term > nd.term {
      CountedDeposed(h, nd, i, a.term);
    } else {
      LeaderKeepsIndices(h, nd, i, j);
      IndicesOk(h, nd, i, j, args.lastIndex + 1, args.lastIndex, nd.commitIndex);
      CountedSame(h, nd, SnapshotAnswered(nd, j, args, a.term), i);
    }
  }

  lemma SnapIndexBounds(h: History, nodes: seq<Node>, call: SnapCall)
    requires Sized(h) && SnapCallOk(h, nodes, call) && NodeOk(h, nodes[call.task.from], call.task.from)
    ensures 0 <= call.task.from < |nodes| == |h.log| && 0 <= call.args.lastIndex <= LastIndex(nodes[call.task.from])
  {
    hide Represents, Sourced, TermsUpTo, Shaped;
  }

  /** What taking in a snapshot's answer makes of the cluster. */
  ghost predicate SnapshotTakenIn(s: Cluster, s': Cluster, i: int) {
    && 0 <= i < |s.nodes| == |s'.nodes| && |s'.stream| == |s.stream|
    && Sized(s.past) && i < |s.past.log|
    && s'.nodes == s.nodes[i := s'.nodes[i]]
    && s'.past == Raise(s.past, i, s'.nodes[i].term)
    && TakenIn(s.past, s.nodes[i], s'.nodes[i], i)
    && s'.rounds == s.rounds && s'.appendCalls == s.appendCalls && s'.appendAnswers == s.appendAnswers
    && s'.voteCalls == s.voteCalls && s'.voteAnswers == s.voteAnswers && s'.elections == s.elections
    && s'.snapTasks == s.snapTasks && s'.snapCalls == s.snapCalls && s'.snapAnswers == s.snapAnswers
  }

  lemma SnapshotTakenInPast(s: Cluster, s': Cluster, i: int)
    requires Inv(s) && SnapshotTakenIn(s, s', i)
    ensures PastOk(s') && Grows(s.past, s'.past) && NodesOk(s')
    ensures s'.past.reign == s.past.reign && s'.past.candidacy == s.past.candidacy
  {
    RaiseKeepsAcks(s.past, i, s'.nodes[i].term);
    SelfAcksStay(s.past, s'.past);
    hide Sound, SelfAcks, NodeOk, Grows, OnlyTouches, ElectionsOk, ReplicationOk, SnapshotsOk, Raise;
    SoundSized(s'.past);
    NodesStay(s, s', i);
  }

  lemma SnapshotTakenInInv(s: Cluster, s': Cluster, i: int)
    requires Inv(s) && SnapshotTakenIn(s, s', i)
    ensures Inv(s') && Grows(s.past, s'.past) && s'.nodes[i].alive
  {
    hide PastOk, NodesOk, ElectionsOk, ReplicationOk, SnapshotsOk, Sound, NodeOk, Grows, OnlyTouches, Raise;
    SnapshotTakenInPast(s, s', i);
    PastSized(s');
    SameElections(s, s');
    SameReplication(s, s');
    SameSnapshots(s, s', i);
  }

  lemma InvSnapAnswer(s: Cluster, a: SnapAnswer)
    requires Inv(s) && a in s.snapAnswers
    ensures Sized(s.past) && SnapCallOk(s.past, s.nodes, a.call) && 0 <= a.call.task.from < |s.past.log|
  {
  }

  lemma TakeSnapshotAnswerInv(s: Cluster, a: SnapAnswer)
    requires Inv(s) && Enabled(s, TakeSnapshotAnswer(a)) && HasPast(s, a.call.task.from)
    ensures Inv(DoTakeSnapshotAnswer(s, a)) && Grows(s.past, DoTakeSnapshotAnswer(s, a).past)
    ensures DoTakeSnapshotAnswer(s, a).nodes[a.call.task.from].alive
  {
    hide Inv, Sound, SelfAcks, NodeOk, SnapCallOk, TakenIn, SnapshotAnswered, Raise, Grows;
    InvNode(s, a.call.task.from);
    InvSnapAnswer(s, a);
    SnapshotAnsweredOk(s.past, s.nodes, a);
    SnapshotTakenInInv(s, DoTakeSnapshotAnswer(s, a), a.call.task.from);
  }

  // ----- Deliver ---------------------------------------------------------------------------

  /** The commands of the log at indices lo+1 to hi, in order. */
  function Commands(log: Log, lo: int, hi: int): seq<ApplyMsg>
    requires 0 <= lo <= hi < |log|
    decreases hi - lo
  {
    if lo == hi then [] else [Command(lo + 1, log[lo + 1].command)] + Commands(log, lo + 1, hi)
  }

  lemma SlotOf(nd: Node, log: Log, i: int)
    requires Represents(nd, log) && nd.snapIndex < i < |log|
    ensures HasSlot(nd, i) && EntryAt(nd, i) == log[i] && log[i].index == i
  {
  }

  lemma RepresentsKept(nd: Node, nd': Node, log: Log)
    requires Represents(nd, log) && nd'.logs == nd.logs && nd'.snapIndex == nd.snapIndex && nd'.snapTerm == nd.snapTerm
    ensures Represents(nd', log)
  {
  }

  /** Delivery sends up exactly the committed commands not sent yet; its assertion never fails. */
  lemma {:induction false} DrainIs(nd: Node, log: Log)
    requires Represents(nd, log) && nd.snapIndex <= nd.lastApplied <= nd.commitIndex < |log|
    ensures DrainCommitted(nd) == (nd.(lastApplied := nd.commitIndex), Commands(log, nd.lastApplied, nd.commitIndex))
    decreases nd.commitIndex - nd.lastApplied
  {
    hide HasSlot, EntryAt, Represents;
    if nd.lastApplied < nd.commitIndex {
      var i := nd.lastApplied + 1;
      SlotOf(nd, log, i);
      RepresentsKept(nd, nd.(lastApplied := i), log);
      DrainIs(nd.(lastApplied := i), log);
    }
  }

  lemma GetApplyLogsIs(nd: Node, log: Log, n: nat)
    requires Represents(nd, log) && IndexSpace(nd, n)
    ensures 0 <= nd.lastApplied <= nd.commitIndex < |log|
    ensures GetApplyLogs(nd) == (nd.(lastApplied := nd.commitIndex), Commands(log, nd.lastApplied, nd.commitIndex))
  {
    LastOfLog(nd, log);
    DrainIs(nd, log);
  }

  lemma DeliverOk(h: History, nd: Node, v: int)
    requires Sized(h) && 0 <= v < |h.log| && NodeOk(h, nd, v)
    ensures var nd' := GetApplyLogs(nd).0;
      NodeOk(h, nd', v) && nd'.alive == nd.alive && nd'.snapIndex == nd.snapIndex
  {
    GetApplyLogsIs(nd, h.log[v], |h.log|);
    hide GetApplyLogs, Leads;
  }

  lemma DeliverInv(s: Cluster, i: int)
    requires Inv(s) && Up(s, i) && HasPast(s, i)
    ensures Inv(DoDeliver(s, i))
    ensures DoDeliver(s, i).nodes[i].alive
  {
    hide Inv, NodeOk, Sound, SelfAcks, GetApplyLogs;
    InvNode(s, i);
    DeliverOk(s.past, s.nodes[i], i);
    OnlyRecordInv(s, DoDeliver(s, i), i);
  }
}
