/**
  The cluster as a step system: n servers and the calls between them.

  A request stays deliverable for ever, so it can be late, reordered, repeated or lost; the reply of
  a call is taken in at most once.  Every step is one critical section of raft.cpp.

  `past` and the record fields named below are history: they are written by the steps and never
  read by them.
*/
module RaftCluster {
  import opened RaftLog
  import opened RaftHistory
  import opened RaftNode

  /** A RequestVote on its way to `to`; the caller is `args.candidate`. */
  datatype VoteCall = VoteCall(to: int, args: VoteArgs)
  datatype VoteAnswer = VoteAnswer(call: VoteCall, reply: VoteReply)

  /** The counter of one election or one heartbeat; `counted` is history, `done` the calls taken in. */
  datatype Tally = Tally(num: int, counted: set<int>, done: set<int>)

  /** One heartbeat of a leader; leader, term and end (its last index) are history. */
  datatype Round = Round(leader: int, term: int, end: int, tally: Tally)

  datatype AppendCall = AppendCall(round: int, to: int, args: AppendArgs)
  datatype AppendAnswer = AppendAnswer(call: AppendCall, reply: AppendReply)

  /** A thread spawned by heartbeat `round` to send `from`'s snapshot to `to`. */
  datatype SnapTask = SnapTask(round: int, from: int, to: int)

  /** `covered` is history: the whole log the snapshot stands for. */
  datatype SnapCall = SnapCall(task: SnapTask, args: SnapArgs, covered: Log)
  datatype SnapAnswer = SnapAnswer(call: SnapCall, term: int)

  datatype Cluster = Cluster(
    nodes: seq<Node>,
    voteCalls: set<VoteCall>,
    voteAnswers: set<VoteAnswer>,
    elections: map<(int, int), Tally>,
    appendCalls: set<AppendCall>,
    appendAnswers: set<AppendAnswer>,
    rounds: seq<Round>,
    snapTasks: set<SnapTask>,
    snapCalls: set<SnapCall>,
    snapAnswers: set<SnapAnswer>,
    snapDone: set<SnapTask>,
    stream: seq<seq<ApplyMsg>>,
    past: History)

  datatype Step =
    | Elect(server: int)
    | DeliverVote(voteCall: VoteCall)
    | TakeVote(voteAnswer: VoteAnswer)
    | Propose(server: int, command: string)
    | HeartBeat(server: int)
    | DeliverAppend(appendCall: AppendCall)
    | TakeAppend(appendAnswer: AppendAnswer)
    | Compact(server: int, index: int, data: string)
    | SendSnapshot(task: SnapTask)
    | DeliverSnapshot(snapCall: SnapCall)
    | TakeSnapshotAnswer(snapAnswer: SnapAnswer)
    | Deliver(server: int)

  const NO_VOTES: Tally := Tally(1, {}, {})

  function Init(n: nat): Cluster {
    Cluster(
      seq(n, _ => Fresh(n)), {}, {}, map[], {}, {}, [], {}, {}, {}, {}, seq(n, _ => []), Origin(n))
  }

  predicate Up(s: Cluster, i: int) {
    0 <= i < |s.nodes| && s.nodes[i].alive
  }

  predicate HasPeer(nd: Node, j: int) {
    0 <= j < |nd.nextIndex| && j < |nd.matchIndex|
  }

  predicate Enabled(s: Cluster, step: Step) {
    match step
    case Elect(i) => Up(s, i)
    case DeliverVote(call) => call in s.voteCalls && Up(s, call.to)
    case TakeVote(answer) =>
      var key := (answer.call.args.candidate, answer.call.args.term);
      answer in s.voteAnswers && Up(s, key.0) && key in s.elections && answer.call.to !in s.elections[key].done
    case Propose(i, _) => Up(s, i)
    case HeartBeat(i) => Up(s, i)
    case DeliverAppend(call) => call in s.appendCalls && Up(s, call.to)
    case TakeAppend(answer) =>
      && answer in s.appendAnswers && Up(s, answer.call.args.leader)
      && HasPeer(s.nodes[answer.call.args.leader], answer.call.to)
      && 0 <= answer.call.round < |s.rounds| && answer.call.to !in s.rounds[answer.call.round].tally.done
    case Compact(i, _, _) => Up(s, i)
    case SendSnapshot(task) => task in s.snapTasks && Up(s, task.from)
    case DeliverSnapshot(call) => call in s.snapCalls && Up(s, call.task.to)
    case TakeSnapshotAnswer(answer) =>
      && answer in s.snapAnswers && Up(s, answer.call.task.from) && answer.call.task !in s.snapDone
      && HasPeer(s.nodes[answer.call.task.from], answer.call.task.to)
    case Deliver(i) => Up(s, i)
  }

  function Peers(n: nat, i: int): set<int> {
    Servers(n) - {i}
  }

  // ----- history updates -------------------------------------------------------------------

  predicate HasPast(s: Cluster, i: int) {
    Sized(s.past) && 0 <= i < |s.past.log| && i < |s.nodes| && i < |s.stream|
  }

  function PastOfVote(h: History, v: int, nd: Node, args: VoteArgs, granted: bool): History
    requires Sized(h) && 0 <= v < |h.log|
  {
    var h := Raise(h, v, nd.term);
    if granted && (v, nd.term) !in h.vote then CastVote(h, v, args.candidate) else h
  }

  function PastOfCount(h: History, c: int, nd: Node, nd': Node, electors: set<int>): History
    requires Sized(h) && 0 <= c < |h.log|
  {
    if nd'.status == Leader && nd.status != Leader then Win(h, c, electors) else Raise(h, c, nd'.term)
  }

  function PastOfAppend(h: History, v: int, nd: Node, call: AppendCall, success: bool): History
    requires Sized(h) && 0 <= v < |h.log|
  {
    var h := Raise(h, v, nd.term);
    var args := call.args;
    if success && 0 <= args.prevIndex < |h.log[v]| then
      Accept(h, v, Merged(h.log[v], args.prevIndex, args.entries), args.prevIndex + |args.entries|)
    else
      h
  }

  /** The whole log after a snapshot arrives: what it covers, then what the server had beyond it. */
  function Covered(log: Log, covered: Log): Log {
    covered + (if |log| > |covered| then log[|covered|..] else [])
  }

  function PastOfInstall(h: History, v: int, nd: Node, covered: Log, installed: bool): History
    requires Sized(h) && 0 <= v < |h.log|
  {
    var h := Raise(h, v, nd.term);
    if installed then Install(h, v, Covered(h.log[v], covered)) else h
  }

  // ----- steps -----------------------------------------------------------------------------

  function DoElect(s: Cluster, i: int): Cluster
    requires Up(s, i) && HasPast(s, i)
  {
    var nd := s.nodes[i];
    if nd.status == Leader then s
    else
      var nd' := Stand(nd, i);
      var args := Ballot(nd', i);
      s.(nodes := s.nodes[i := nd'],
         voteCalls := s.voteCalls + (set j | j in Peers(|s.nodes|, i) :: VoteCall(j, args)),
         elections := s.elections[(i, nd'.term) := NO_VOTES],
         past := RaftHistory.Elect(s.past, i))
  }

  function DoDeliverVote(s: Cluster, call: VoteCall): Cluster
    requires Up(s, call.to) && HasPast(s, call.to)
  {
    var (nd, reply) := RequestVote(s.nodes[call.to], call.args);
    s.(nodes := s.nodes[call.to := nd],
       voteAnswers := s.voteAnswers + {VoteAnswer(call, reply)},
       past := PastOfVote(s.past, call.to, nd, call.args, reply.granted))
  }

  function Count(t: Tally, j: int, num: int, counts: bool): Tally {
    Tally(num, if counts then t.counted + {j} else t.counted, t.done + {j})
  }

  function DoTakeVote(s: Cluster, answer: VoteAnswer): Cluster
    requires Enabled(s, TakeVote(answer)) && HasPast(s, answer.call.args.candidate)
  {
    var c := answer.call.args.candidate;
    var key := (c, answer.call.args.term);
    var nd := s.nodes[c];
    var (nd', num) := CountVote(nd, |s.nodes|, answer.reply, s.elections[key].num);
    var tally := Count(s.elections[key], answer.call.to, num, answer.reply.term == nd.term && answer.reply.granted);
    s.(nodes := s.nodes[c := nd'],
       elections := s.elections[key := tally],
       past := PastOfCount(s.past, c, nd, nd', tally.counted + {c}))
  }

  function DoPropose(s: Cluster, i: int, command: string): Cluster
    requires Up(s, i) && HasPast(s, i)
  {
    var (nd, _, _, leads) := Start(s.nodes[i], command);
    s.(nodes := s.nodes[i := nd],
       past := if leads && s.past.term[i] in s.past.reign then RaftHistory.Propose(s.past, i, command) else s.past)
  }

  predicate Answers(nd: Node, i: int, j: int) {
    HasPeer(nd, j) && HeartBeatTo(nd, i, j).Append?
  }

  predicate NeedsSnapshot(nd: Node, i: int, j: int) {
    HasPeer(nd, j) && HeartBeatTo(nd, i, j).SendSnapshot?
  }

  /** No assertion fails for a peer up to j, so `doHeartBeat` gets to it. */
  predicate Gets(nd: Node, n: nat, i: int, j: int) {
    forall k | k in Peers(n, i) && k <= j :: Answers(nd, i, k) || NeedsSnapshot(nd, i, k)
  }

  /** `doHeartBeat`; if an assertion fails for some peer the leader exits, and only the peers before it are served. */
  function DoHeartBeat(s: Cluster, i: int): Cluster
    requires Up(s, i) && HasPast(s, i)
  {
    var nd := s.nodes[i];
    var peers := Peers(|s.nodes|, i);
    if nd.status != Leader then s
    else if exists j | j in peers :: !Answers(nd, i, j) && !NeedsSnapshot(nd, i, j) then
      s.(nodes := s.nodes[i := Exit(nd)],
         appendCalls := s.appendCalls +
           (set j | j in peers && Gets(nd, |s.nodes|, i, j) && Answers(nd, i, j) :: AppendCall(|s.rounds|, j, HeartBeatTo(nd, i, j).args)),
         snapTasks := s.snapTasks +
           (set j | j in peers && Gets(nd, |s.nodes|, i, j) && NeedsSnapshot(nd, i, j) :: SnapTask(|s.rounds|, i, j)),
         rounds := s.rounds + [Round(i, nd.term, LastIndex(nd), NO_VOTES)])
    else
      s.(appendCalls := s.appendCalls +
           (set j | j in peers && Answers(nd, i, j) :: AppendCall(|s.rounds|, j, HeartBeatTo(nd, i, j).args)),
         snapTasks := s.snapTasks + (set j | j in peers && NeedsSnapshot(nd, i, j) :: SnapTask(|s.rounds|, i, j)),
         rounds := s.rounds + [Round(i, nd.term, LastIndex(nd), NO_VOTES)])
  }

  function DoDeliverAppend(s: Cluster, call: AppendCall): Cluster
    requires Up(s, call.to) && HasPast(s, call.to)
  {
    var (nd, reply) := AppendEntries(s.nodes[call.to], call.args);
    s.(nodes := s.nodes[call.to := nd],
       appendAnswers := if nd.alive then s.appendAnswers + {AppendAnswer(call, reply)} else s.appendAnswers,
       past := PastOfAppend(s.past, call.to, nd, call, reply.success))
  }

  function DoTakeAppend(s: Cluster, answer: AppendAnswer): Cluster
    requires Enabled(s, TakeAppend(answer)) && HasPast(s, answer.call.args.leader)
  {
    var call := answer.call;
    var i := call.args.leader;
    var nd := s.nodes[i];
    var round := s.rounds[call.round];
    var (nd', num) := CountAppend(nd, |s.nodes|, call.to, call.args, answer.reply, round.tally.num);
    var counts := answer.reply.term == nd.term && nd.status == Leader && answer.reply.success;
    s.(nodes := s.nodes[i := nd'],
       rounds := s.rounds[call.round := round.(tally := Count(round.tally, call.to, num, counts))],
       past := Raise(s.past, i, nd'.term))
  }

  function DoCompact(s: Cluster, i: int, index: int, data: string): Cluster
    requires Up(s, i)
  {
    s.(nodes := s.nodes[i := TakeSnapshot(s.nodes[i], index, data)])
  }

  function DoSendSnapshot(s: Cluster, task: SnapTask): Cluster
    requires Up(s, task.from) && HasPast(s, task.from)
  {
    var nd := s.nodes[task.from];
    var log := s.past.log[task.from];
    var covered := if 0 <= nd.snapIndex < |log| then log[..nd.snapIndex + 1] else log;
    s.(snapTasks := s.snapTasks - {task},
       snapCalls := s.snapCalls + {SnapCall(task, SnapshotToSend(nd, task.from), covered)})
  }

  function DoDeliverSnapshot(s: Cluster, call: SnapCall): Cluster
    requires Up(s, call.task.to) && HasPast(s, call.task.to)
  {
    var to := call.task.to;
    var (nd, term, msgs) := InstallSnapshot(s.nodes[to], call.args);
    s.(nodes := s.nodes[to := nd],
       snapAnswers := s.snapAnswers + {SnapAnswer(call, term)},
       stream := s.stream[to := s.stream[to] + msgs],
       past := PastOfInstall(s.past, to, nd, call.covered, msgs != []))
  }

  function DoTakeSnapshotAnswer(s: Cluster, answer: SnapAnswer): Cluster
    requires Enabled(s, TakeSnapshotAnswer(answer)) && HasPast(s, answer.call.task.from)
  {
    var i := answer.call.task.from;
    var nd := SnapshotAnswered(s.nodes[i], answer.call.task.to, answer.call.args, answer.term);
    s.(nodes := s.nodes[i := nd],
       snapDone := s.snapDone + {answer.call.task},
       past := Raise(s.past, i, nd.term))
  }

  function DoDeliver(s: Cluster, i: int): Cluster
    requires Up(s, i) && HasPast(s, i)
  {
    var (nd, msgs) := GetApplyLogs(s.nodes[i]);
    s.(nodes := s.nodes[i := nd], stream := s.stream[i := s.stream[i] + msgs])
  }

  function Actor(step: Step): int {
    match step
    case Elect(i) => i
    case DeliverVote(call) => call.to
    case TakeVote(answer) => answer.call.args.candidate
    case Propose(i, _) => i
    case HeartBeat(i) => i
    case DeliverAppend(call) => call.to
    case TakeAppend(answer) => answer.call.args.leader
    case Compact(i, _, _) => i
    case SendSnapshot(task) => task.from
    case DeliverSnapshot(call) => call.task.to
    case TakeSnapshotAnswer(answer) => answer.call.task.from
    case Deliver(i) => i
  }

  function Perform(s: Cluster, step: Step): Cluster
    requires Enabled(s, step) && HasPast(s, Actor(step))
  {
    match step
    case Elect(i) => DoElect(s, i)
    case DeliverVote(call) => DoDeliverVote(s, call)
    case TakeVote(answer) => DoTakeVote(s, answer)
    case Propose(i, command) => DoPropose(s, i, command)
    case HeartBeat(i) => DoHeartBeat(s, i)
    case DeliverAppend(call) => DoDeliverAppend(s, call)
    case TakeAppend(answer) => DoTakeAppend(s, answer)
    case Compact(i, index, data) => DoCompact(s, i, index, data)
    case SendSnapshot(task) => DoSendSnapshot(s, task)
    case DeliverSnapshot(call) => DoDeliverSnapshot(s, call)
    case TakeSnapshotAnswer(answer) => DoTakeSnapshotAnswer(s, answer)
    case Deliver(i) => DoDeliver(s, i)
  }

  // ----- runs ------------------------------------------------------------------------------

  /** One step: it was enabled, and s' is what it made of s. */
  ghost predicate Next(s: Cluster, step: Step, s': Cluster) {
    Enabled(s, step) && HasPast(s, Actor(step)) && s' == Perform(s, step)
  }

  /** states[0] is a fresh cluster of n servers; steps[k] leads from states[k] to states[k + 1]. */
  ghost predicate IsRun(n: nat, states: seq<Cluster>, steps: seq<Step>) {
    && n > 0
    && |states| == |steps| + 1
    && states[0] == Init(n)
    && forall k | 0 <= k < |steps| :: Next(states[k], steps[k], states[k + 1])
  }

  // ----- clean steps -----------------------------------------------------------------------

  /** The request passes the term and the previous-entry checks, so its entries are merged. */
  predicate Merges(nd: Node, args: AppendArgs) {
    && args.term >= nd.term
    && KnowsTerm(nd, args.prevIndex)
    && TermAt(nd, args.prevIndex) == args.prevTerm
  }

  /** The merge overwrites an entry of another term. */
  predicate Overwrites(nd: Node, args: AppendArgs) {
    && Merges(nd, args)
    && exists k | 0 <= k < |args.entries| ::
         HasSlot(nd, args.entries[k].index) && TermAt(nd, args.entries[k].index) != args.entries[k].term
  }

  /** An overwriting AppendEntries reaches the end of the log, so no stale tail survives it. */
  predicate CleanAppend(nd: Node, args: AppendArgs) {
    Overwrites(nd, args) ==> args.prevIndex + |args.entries| >= LastIndex(nd)
  }

  /** An InstallSnapshot that keeps a suffix finds the snapshot's term at the snapshot's index. */
  predicate CleanInstall(nd: Node, args: SnapArgs) {
    args.term >= nd.term && nd.snapIndex < args.lastIndex < LastIndex(nd) && HasSlot(nd, args.lastIndex) ==>
      TermAt(nd, args.lastIndex) == args.lastTerm
  }

  predicate Clean(s: Cluster, step: Step)
    requires Enabled(s, step)
  {
    match step
    case DeliverAppend(call) => CleanAppend(s.nodes[call.to], call.args)
    case DeliverSnapshot(call) => CleanInstall(s.nodes[call.task.to], call.args)
    case _ => true
  }
}
