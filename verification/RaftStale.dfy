/**
  Late and repeated AppendEntries are harmless: a follower keeps what it acknowledged to a leader for
  as long as it stays in that leader's term, and a batch delivered twice changes nothing.
*/
module RaftStale {
  import opened RaftLog
  import opened RaftHistory
  import opened RaftNode
  import opened RaftCluster
  import opened RaftInvariant
  import opened RaftElectionSteps
  import opened RaftReplicationSteps
  import opened RaftSnapshotSteps
  import opened RaftSafety
  import opened RaftCommit

  // ----- redelivery ------------------------------------------------------------------------

  lemma MergedTwice(log: Log, p: int, entries: seq<Entry>)
    requires 0 <= p < |log|
    ensures Merged(Merged(log, p, entries), p, entries) == Merged(log, p, entries)
  {
  }

  lemma AppendedTwice(nd: Node, log: Log, args: AppendArgs)
    requires 0 <= nd.snapIndex < |log|
    ensures Appended(Appended(nd, log, args), log, args) == Appended(nd, log, args)
  {
  }

  /** The server that accepted a batch passes the batch's checks again. */
  lemma PassesAgain(h: History, nd: Node, call: AppendCall)
    requires Passes(h, nd, call)
    ensures Sized(h) && Passes(Accepted(h, call), Appended(nd, AcceptedLog(h, call), call.args), call)
    ensures AcceptedLog(Accepted(h, call), call) == AcceptedLog(h, call)
  {
    AcceptedGood(h, nd, call);
    AcceptedPast(h, nd, call);
    AcceptedNode(h, nd, call);
    MergedAt(h.log[call.to], call.args.prevIndex, call.args.entries);
    MergedTwice(h.log[call.to], call.args.prevIndex, call.args.entries);
    hide Sound, NodeOk, Grows, OnlyTouches, Merged, Good, FromReign, Consecutive, NoClash;
    FromReignGrows(h, Accepted(h, call), call);
  }

  lemma FromReignGrows(h: History, h': History, call: AppendCall)
    requires FromReign(h, call) && h'.reign == h.reign
    ensures FromReign(h', call)
  {
  }

  /** Delivering a batch again, right after it succeeded, answers the same and changes nothing at all. */
  lemma RedeliveryChangesNothing(h: History, nd: Node, call: AppendCall)
    requires Sound(h) && Sized(h) && 0 <= call.to < |h.log| && NodeOk(h, nd, call.to) && FromReign(h, call)
    requires AppendEntries(nd, call.args).1.success
    ensures AppendEntries(AppendEntries(nd, call.args).0, call.args) == AppendEntries(nd, call.args)
  {
    hide Sound, NodeOk, FromReign, AppendEntries, Passes, Accepted, AcceptedLog, Appended, AppendTaken, Raise;
    SuccessPasses(h, nd, call);
    var met := Meet(nd, call.args.term).(status := Follower);
    var r := Raise(h, call.to, met.term);
    PassesSized(r, met, call);
    PassesAgain(r, met, call);
    PassesCommit(r, met, call);
    var nd' := Appended(met, AcceptedLog(r, call), call.args);
    PassesSized(Accepted(r, call), nd', call);
    AcceptOk(Accepted(r, call), nd', call);
    AppendedTwice(met, AcceptedLog(r, call), call.args);
    AppendedTerm(met, AcceptedLog(r, call), call.args);
  }

  lemma AppendedTerm(nd: Node, log: Log, args: AppendArgs)
    requires 0 <= nd.snapIndex < |log|
    ensures Appended(nd, log, args).term == nd.term
  {
  }

  // ----- what a follower acknowledged in a term stays --------------------------------------

  /** The log holds the batch of the call, behind an entry of the term the call names. */
  ghost predicate HoldsBatch(log: Log, args: AppendArgs) {
    && 0 <= args.prevIndex && args.prevIndex + |args.entries| < |log|
    && log[args.prevIndex].term == args.prevTerm
    && forall j | 0 <= j < |args.entries| :: log[args.prevIndex + 1 + j] == args.entries[j]
  }

  lemma MergeHolds(log: Log, args: AppendArgs)
    requires 0 <= args.prevIndex < |log| && log[args.prevIndex].term == args.prevTerm
    ensures HoldsBatch(Merged(log, args.prevIndex, args.entries), args)
  {
    MergedAt(log, args.prevIndex, args.entries);
  }

  /** Batches of one leader are stretches of one log, so merging one cannot disturb another. */
  lemma MergeKeepsBatch(log: Log, lead: Log, args: AppendArgs, end: int, other: AppendArgs, otherEnd: int)
    requires HoldsBatch(log, args) && Stretch(lead, args, end) && Stretch(lead, other, otherEnd)
    requires other.prevIndex < |log|
    ensures HoldsBatch(Merged(log, other.prevIndex, other.entries), args)
  {
    MergedAt(log, other.prevIndex, other.entries);
    var log' := Merged(log, other.prevIndex, other.entries);
    hide Merged;
    if other.prevIndex < args.prevIndex <= otherEnd {
      assert log'[args.prevIndex] == other.entries[args.prevIndex - other.prevIndex - 1] == lead[args.prevIndex];
    }
    forall j | 0 <= j < |args.entries| ensures log'[args.prevIndex + 1 + j] == args.entries[j] {
      var i := args.prevIndex + 1 + j;
      if other.prevIndex < i <= otherEnd {
        assert log'[i] == other.entries[i - other.prevIndex - 1] == lead[i];
      }
    }
  }

  /** Server `call.to` is in the call's term and holds its batch. */
  ghost predicate Keeps(s: Cluster, call: AppendCall) {
    && Sized(s.past) && 0 <= call.to < |s.past.log| && s.past.term[call.to] == call.args.term
    && HoldsBatch(s.past.log[call.to], call.args)
    && FromReign(s.past, call)
  }

  lemma FromReignStays(h: History, h': History, call: AppendCall)
    requires FromReign(h, call) && Grows(h, h')
    ensures FromReign(h', call)
  {
    ReignKept(h, h', call.args.term);
  }

  lemma PassesPrev(h: History, nd: Node, call: AppendCall)
    requires Passes(h, nd, call)
    ensures 0 <= call.args.prevIndex < |h.log[call.to]| && h.log[call.to][call.args.prevIndex].term == call.args.prevTerm
  {
  }

  /** Once accepted, the batch is held. */
  lemma AcceptanceKeeps(s: Cluster, call: AppendCall)
    requires Inv(s) && Enabled(s, DeliverAppend(call)) && HasPast(s, call.to)
    requires AppendEntries(s.nodes[call.to], call.args).1.success
    ensures Keeps(DoDeliverAppend(s, call), call)
  {
    hide Inv, Sound, SelfAcks, NodeOk, AppendCallOk, FromReign, AppendEntries, Merged, Passes, Appended, HoldsBatch;
    InvNode(s, call.to);
    InvAppendCall(s, call);
    CallFromReign(s.past, s.rounds, call);
    var nd, args := s.nodes[call.to], call.args;
    SuccessPasses(s.past, nd, call);
    var met := Meet(nd, args.term).(status := Follower);
    var r := Raise(s.past, call.to, met.term);
    PassesSized(r, met, call);
    PassesCommit(r, met, call);
    PassesPrev(r, met, call);
    AppendedSame(met, AcceptedLog(r, call), args);
    MergeHolds(s.past.log[call.to], args);
    FromReignGrows(s.past, DoDeliverAppend(s, call).past, call);
  }

  /** Another AppendEntries of the same term. */
  lemma AppendKeeps(s: Cluster, s': Cluster, call: AppendCall, other: AppendCall)
    requires other in s.appendCalls && Up(s, other.to) && HasPast(s, other.to) && other.to == call.to
    requires Inv(s) && Keeps(s, call)
    requires s' == DoDeliverAppend(s, other) && Sized(s'.past) && |s'.past.log| == |s.past.log|
    requires s'.past.term[call.to] == call.args.term
    ensures HoldsBatch(s'.past.log[call.to], call.args)
  {
    hide Inv, Sound, SelfAcks, NodeOk, AppendCallOk, AppendEntries, Merged, Passes, Appended, HoldsBatch, Stretch;
    InvNode(s, other.to);
    InvAppendCall(s, other);
    CallFromReign(s.past, s.rounds, other);
    var nd, args, v := s.nodes[other.to], other.args, other.to;
    if AppendEntries(nd, args).1.success {
      SuccessPasses(s.past, nd, other);
      var met := Meet(nd, args.term).(status := Follower);
      var r := Raise(s.past, v, met.term);
      PassesSized(r, met, other);
      PassesCommit(r, met, other);
      AppendedSame(met, AcceptedLog(r, other), args);
      MergeKeepsBatch(s.past.log[v], s.past.reign[args.term].log, call.args, call.args.prevIndex + |call.args.entries|, args, args.prevIndex + |args.entries|);
    }
  }

  /** The step installs a snapshot on v. */
  predicate InstallsOn(s: Cluster, step: Step, v: int)
  {
    Enabled(s, step) && step.DeliverSnapshot? && step.snapCall.task.to == v && InstallSnapshot(s.nodes[v], step.snapCall.args).2 != []
  }

  /** Steps that append nothing to v, merge nothing into it and install nothing on it leave its log alone. */
  lemma OtherLogsStay(s: Cluster, step: Step, v: int)
    requires Enabled(s, step) && HasPast(s, Actor(step)) && 0 <= v < |s.past.log|
    requires Actor(step) == v ==>
      && !step.DeliverAppend? && !InstallsOn(s, step, v) && (step.Propose? ==> s.nodes[v].status != Leader)
    ensures |Perform(s, step).past.log| == |s.past.log| && Perform(s, step).past.log[v] == s.past.log[v]
  {
    hide AppendEntries, CountAppend, CountVote, RequestVote, GetApplyLogs, HeartBeatTo, Merged, Covered, TakeSnapshot;
  }

  lemma FollowersDoNotLead(s: Cluster, call: AppendCall)
    requires Inv(s) && Keeps(s, call) && 0 <= call.to < |s.nodes|
    ensures s.nodes[call.to].status != Leader
  {
    hide Inv, Sound, SelfAcks, Represents, IndexSpace, VoteKnown, HoldsBatch, Stretch;
    InvNode(s, call.to);
  }

  /** What the covered log has of the batch's stretch is the batch's own. */
  ghost predicate Fits(covered: Log, args: AppendArgs) {
    && (0 <= args.prevIndex < |covered| ==> covered[args.prevIndex].term == args.prevTerm)
    && forall j | 0 <= j < |args.entries| && 0 <= args.prevIndex + 1 + j < |covered| :: covered[args.prevIndex + 1 + j] == args.entries[j]
  }

  /** A log that holds a batch holds it under a covered prefix exactly if the prefix fits it. */
  lemma CoveredHolds(log: Log, covered: Log, args: AppendArgs)
    requires HoldsBatch(log, args)
    ensures HoldsBatch(Covered(log, covered), args) <==> Fits(covered, args)
  {
    var log' := Covered(log, covered);
    assert forall i | 0 <= i < |log'| :: log'[i] == if i < |covered| then covered[i] else log[i];
    hide Covered;
    if HoldsBatch(log', args) {
      forall j | 0 <= j < |args.entries| && args.prevIndex + 1 + j < |covered| ensures covered[args.prevIndex + 1 + j] == args.entries[j] {
        assert log'[args.prevIndex + 1 + j] == args.entries[j];
      }
    }
    if Fits(covered, args) {
      forall j | 0 <= j < |args.entries| ensures log'[args.prevIndex + 1 + j] == args.entries[j] {
        assert log[args.prevIndex + 1 + j] == args.entries[j];
      }
    }
  }

  lemma InstalledLog(s: Cluster, step: Step, v: int)
    requires InstallsOn(s, step, v) && HasPast(s, v)
    ensures step.DeliverSnapshot? && HasPast(s, Actor(step)) && v < |Perform(s, step).past.log|
    ensures Perform(s, step).past.log[v] == Covered(s.past.log[v], step.snapCall.covered)
  {
    hide InstallSnapshot, Covered;
  }

  /** A snapshot installed on the call's receiver fits the call's batch. */
  ghost predicate InstallFits(s: Cluster, step: Step, call: AppendCall) {
    InstallsOn(s, step, call.to) ==> Fits(step.snapCall.covered, call.args)
  }

  /** A step within the term keeps the batch exactly if it installs nothing that does not fit it. */
  lemma StepKeepsBatch(s: Cluster, step: Step, call: AppendCall)
    requires Inv(s) && Enabled(s, step) && HasPast(s, Actor(step)) && Keeps(s, call)
    requires Sized(Perform(s, step).past) && |Perform(s, step).past.log| == |s.past.log|
    requires Perform(s, step).past.term[call.to] == call.args.term
    ensures Keeps(Perform(s, step), call) <==> InstallFits(s, step, call)
  {
    hide Inv, Perform, HasPast, InstallsOn, FromReign, HoldsBatch, Grows, Enabled, Fits;
    StepKeeps(s, step);
    FromReignStays(s.past, Perform(s, step).past, call);
    InvSized(s);
    FollowersDoNotLead(s, call);
    if step.DeliverAppend? && step.appendCall.to == call.to {
      DeliverAppendIs(s, step);
      AppendKeeps(s, Perform(s, step), call, step.appendCall);
      AppendsDoNotInstall(s, step, call.to);
    } else if InstallsOn(s, step, call.to) {
      PastAt(s, call.to);
      InstalledLog(s, step, call.to);
      CoveredHolds(s.past.log[call.to], step.snapCall.covered, call.args);
    } else {
      OtherLogsStay(s, step, call.to);
    }
  }

  lemma AppendsDoNotInstall(s: Cluster, step: Step, v: int)
    requires step.DeliverAppend?
    ensures !InstallsOn(s, step, v)
  {
  }

  lemma PastAt(s: Cluster, v: int)
    requires Inv(s) && 0 <= v < |s.past.log|
    ensures HasPast(s, v)
  {
    InvSized(s);
    hide Inv;
  }

  lemma DeliverAppendIs(s: Cluster, step: Step)
    requires Enabled(s, step) && HasPast(s, Actor(step)) && step.DeliverAppend?
    ensures step.appendCall in s.appendCalls && Up(s, step.appendCall.to) && HasPast(s, step.appendCall.to)
    ensures Perform(s, step) == DoDeliverAppend(s, step.appendCall) && Actor(step) == step.appendCall.to
  {
  }

  /** Every snapshot installed on the receiver from k to m fits the batch. */
  ghost predicate InstallsFit(states: seq<Cluster>, steps: seq<Step>, k: int, m: int, call: AppendCall)
    requires 0 <= k <= m <= |steps| < |states|
  {
    forall p | k <= p < m :: InstallFits(states[p], steps[p], call)
  }

  lemma TermsBetween(n: nat, states: seq<Cluster>, steps: seq<Step>, k: int, p: int, m: int, v: int)
    requires IsRun(n, states, steps) && 0 <= k <= p <= m < |states| && 0 <= v < n
    requires Sized(states[k].past) && Sized(states[m].past) && v < |states[k].past.log| && v < |states[m].past.log|
    requires states[k].past.term[v] == states[m].past.term[v]
    ensures Sized(states[p].past) && v < |states[p].past.log| && states[p].past.term[v] == states[m].past.term[v]
  {
    RunKeeps(n, states, steps, p);
    InvSized(states[p]);
    RunGrows(n, states, steps, k, p);
    RunGrows(n, states, steps, p, m);
    hide Inv, IsRun;
  }

  lemma {:induction false} BatchStays(n: nat, states: seq<Cluster>, steps: seq<Step>, k: int, m: int, call: AppendCall)
    requires IsRun(n, states, steps) && 0 <= k <= m < |states| && 0 <= call.to < n
    requires Keeps(states[k], call) && Sized(states[m].past) && call.to < |states[m].past.log|
    requires states[m].past.term[call.to] == call.args.term
    requires InstallsFit(states, steps, k, m, call)
    ensures Keeps(states[m], call)
    decreases m
  {
    hide Inv, Perform, Enabled, HoldsBatch, FromReign, InstallFits, HasPast, Grows;
    if k < m {
      TermsBetween(n, states, steps, k, m - 1, m, call.to);
      assert InstallsFit(states, steps, k, m - 1, call);
      BatchStays(n, states, steps, k, m - 1, call);
      RunKeeps(n, states, steps, m - 1);
      RunKeeps(n, states, steps, m);
      assert Next(states[m - 1], steps[m - 1], states[m]);
      StepKeeps(states[m - 1], steps[m - 1]);
      GrowsSized(states[m - 1].past, states[m].past);
      StepKeepsBatch(states[m - 1], steps[m - 1], call);
    }
  }
}
