/**
  What a follower acknowledged, for as long as it is in the leader's term: it stays, and delivering
  its AppendEntries again, at any later moment, changes nothing.  In clean runs this holds through
  installed snapshots too; in any run exactly as long as those installed fit the batch.
*/
module RaftAcknowledged {
  import opened RaftLog
  import opened RaftHistory
  import opened RaftConsensus
  import opened RaftNode
  import opened RaftCluster
  import opened RaftInvariant
  import opened RaftElectionSteps
  import opened RaftReplicationSteps
  import opened RaftSnapshotSteps
  import opened RaftSafety
  import opened RaftCommit
  import opened RaftClean
  import opened RaftCleanMerge
  import opened RaftStale

  // ----- clean runs: the acknowledgement remembers -----------------------------------------

  function AckOf(call: AppendCall): Ack {
    Ack(call.to, call.args.term, call.args.prevIndex + |call.args.entries|)
  }

  lemma AcceptanceAcknowledges(s: Cluster, call: AppendCall)
    requires Inv(s) && Enabled(s, DeliverAppend(call)) && HasPast(s, call.to)
    requires AppendEntries(s.nodes[call.to], call.args).1.success
    ensures AckOf(call) in DoDeliverAppend(s, call).past.acks
  {
    hide Inv, Sound, SelfAcks, NodeOk, AppendCallOk, FromReign, AppendEntries, Merged, Passes, Appended;
    InvNode(s, call.to);
    InvAppendCall(s, call);
    CallFromReign(s.past, s.rounds, call);
    var nd, args := s.nodes[call.to], call.args;
    SuccessPasses(s.past, nd, call);
    var met := Meet(nd, args.term).(status := Follower);
    var r := Raise(s.past, call.to, met.term);
    PassesSized(r, met, call);
    PassesCommit(r, met, call);
    AppendedSame(met, AcceptedLog(r, call), args);
  }

  /** While its term has not passed, an acknowledgement cannot have been displaced. */
  lemma RetainedInTerm(h: History, a: Ack)
    requires Steady(h) && Sized(h) && a in h.acks && 0 <= a.server < |h.log| && h.term[a.server] == a.term
    ensures a.term in h.reign && Agree(h.log[a.server], h.reign[a.term].log, a.index)
  {
    assert GoodAck(h, a) && Retained(h, a);
    hide Steady, Agree;
  }

  lemma AgreedHolds(h: History, call: AppendCall, log: Log)
    requires FromReign(h, call) && Agree(log, h.reign[call.args.term].log, call.args.prevIndex + |call.args.entries|)
    ensures HoldsBatch(log, call.args)
  {
  }

  lemma CleanKeeps(s: Cluster, call: AppendCall)
    requires CleanInv(s) && FromReign(s.past, call) && AckOf(call) in s.past.acks
    requires 0 <= call.to < |s.past.log| && |s.past.term| == |s.past.log| && s.past.term[call.to] == call.args.term
    ensures Keeps(s, call)
  {
    hide CleanInv, Inv, Steady, FromReign, HoldsBatch, Agree, CommitsOk, TrafficCommitted;
    CleanFacts(s);
    SteadySound(s.past);
    RetainedInTerm(s.past, AckOf(call));
    AgreedHolds(s.past, call, s.past.log[call.to]);
  }

  lemma AcksGrow(h: History, h': History)
    requires Grows(h, h')
    ensures h.acks <= h'.acks
  {
  }

  // ----- the record settles ----------------------------------------------------------------

  /** The server follows, and has committed all the call tells it. */
  ghost predicate Settled(nd: Node, args: AppendArgs) {
    nd.status == Follower && nd.commitIndex >= args.leaderCommit
  }

  lemma AcceptanceSettles(s: Cluster, call: AppendCall)
    requires Inv(s) && Enabled(s, DeliverAppend(call)) && HasPast(s, call.to)
    requires AppendEntries(s.nodes[call.to], call.args).1.success
    ensures Settled(DoDeliverAppend(s, call).nodes[call.to], call.args)
  {
    hide Inv, Sound, SelfAcks, NodeOk, AppendCallOk, FromReign, AppendEntries, Passes, AcceptedLog;
    InvNode(s, call.to);
    InvAppendCall(s, call);
    CallFromReign(s.past, s.rounds, call);
    var nd, args := s.nodes[call.to], call.args;
    SuccessPasses(s.past, nd, call);
    var met := Meet(nd, args.term).(status := Follower);
    var r := Raise(s.past, call.to, met.term);
    PassesSized(r, met, call);
    PassesCommit(r, met, call);
    LeaderCommitBound(s.past, call);
    AcceptedReaches(r, call);
  }

  lemma AcceptedReaches(h: History, call: AppendCall)
    requires 0 <= call.to < |h.log| && 0 <= call.args.prevIndex < |h.log[call.to]|
    ensures call.args.prevIndex + |call.args.entries| < |AcceptedLog(h, call)|
  {
    MergedAt(h.log[call.to], call.args.prevIndex, call.args.entries);
  }

  /** A candidacy is of a new term, so a follower that stays in its term follows or leads. */
  lemma StaysFollower(s: Cluster, step: Step, v: int)
    requires Enabled(s, step) && HasPast(s, Actor(step)) && 0 <= v < |s.nodes| && |Perform(s, step).nodes| == |s.nodes|
    requires s.nodes[v].status == Follower && Perform(s, step).nodes[v].term == s.nodes[v].term
    ensures Perform(s, step).nodes[v].status != Candidate
  {
    hide HeartBeatTo, MergeEntries, DrainCommitted, BackOff, Merged, Covered, KnowsTerm, HasSlot;
    if step.Deliver? && step.server == v {
      DrainKeeps(s.nodes[v]);
    }
  }

  /** Sending up moves only what was applied, and possibly exits. */
  lemma {:induction false} DrainKeeps(nd: Node)
    ensures DrainCommitted(nd).0.status == nd.status && DrainCommitted(nd).0.commitIndex == nd.commitIndex
    decreases nd.commitIndex - nd.lastApplied
  {
    if nd.lastApplied < nd.commitIndex && HasSlot(nd, nd.lastApplied + 1) {
      DrainKeeps(nd.(lastApplied := nd.lastApplied + 1));
    }
  }

  /** No step lowers a commit index. */
  lemma CommitNeverFalls(s: Cluster, step: Step, v: int)
    requires Inv(s) && Enabled(s, step) && HasPast(s, Actor(step)) && 0 <= v < |s.nodes| && |Perform(s, step).nodes| == |s.nodes|
    ensures Perform(s, step).nodes[v].commitIndex >= s.nodes[v].commitIndex
  {
    hide Inv, HeartBeatTo, AppendEntries, DrainCommitted, Merged, Covered, KnowsTerm, HasSlot;
    if step.DeliverAppend? {
      if step.appendCall.to == v {
        FollowerCommitVerified(s, step.appendCall);
      }
    } else if step.Deliver? && step.server == v {
      DrainKeeps(s.nodes[v]);
    }
  }

  lemma StepSettles(s: Cluster, step: Step, call: AppendCall)
    requires Inv(s) && Enabled(s, step) && HasPast(s, Actor(step)) && Keeps(s, call) && Keeps(Perform(s, step), call)
    requires 0 <= call.to < |s.nodes| && |Perform(s, step).nodes| == |s.nodes| && Settled(s.nodes[call.to], call.args)
    ensures Settled(Perform(s, step).nodes[call.to], call.args)
  {
    hide Inv, Perform, Enabled, HasPast, HoldsBatch, FromReign;
    StepKeeps(s, step);
    InvNode(s, call.to);
    InvNode(Perform(s, step), call.to);
    FollowersDoNotLead(Perform(s, step), call);
    StaysFollower(s, step, call.to);
    CommitNeverFalls(s, step, call.to);
  }

  // ----- runs ------------------------------------------------------------------------------

  /** What the theorems ask of the run: it is clean, or the snapshots installed on the server meanwhile fit. */
  ghost predicate Undisturbed(n: nat, states: seq<Cluster>, steps: seq<Step>, k: int, m: int, call: AppendCall)
    requires 0 <= k <= m <= |steps| < |states|
  {
    IsCleanRun(n, states, steps) || InstallsFit(states, steps, k, m, call)
  }

  /** The follower accepted the call at step k and is still in its term at state m. */
  ghost predicate AcceptedIn(n: nat, states: seq<Cluster>, steps: seq<Step>, k: int, m: int, call: AppendCall) {
    && IsRun(n, states, steps) && 0 <= k < m < |states| && steps[k] == DeliverAppend(call)
    && 0 <= call.to < |states[k].nodes| && AppendEntries(states[k].nodes[call.to], call.args).1.success
    && call.to < |states[m].nodes| && states[m].nodes[call.to].term == call.args.term
  }

  ghost predicate AcceptedAt(n: nat, states: seq<Cluster>, steps: seq<Step>, k: int, m: int, call: AppendCall) {
    AcceptedIn(n, states, steps, k, m, call) && Undisturbed(n, states, steps, k + 1, m, call)
  }

  lemma FirstKept(n: nat, states: seq<Cluster>, steps: seq<Step>, k: int, m: int, call: AppendCall)
    requires AcceptedIn(n, states, steps, k, m, call)
    ensures Keeps(states[k + 1], call) && AckOf(call) in states[k + 1].past.acks
    ensures |states[k + 1].nodes| == n && 0 <= call.to < n && Settled(states[k + 1].nodes[call.to], call.args)
    ensures |states[m].nodes| == n && Sized(states[m].past) && |states[m].past.log| == n && states[m].past.term[call.to] == call.args.term
  {
    hide Inv, Perform, AppendEntries, HoldsBatch, FromReign, Undisturbed, NodeOk, Sound, SelfAcks, DoDeliverAppend, Settled;
    RunKeeps(n, states, steps, k);
    RunKeeps(n, states, steps, k + 1);
    RunKeeps(n, states, steps, m);
    assert Next(states[k], steps[k], states[k + 1]);
    DeliverAppendIs(states[k], steps[k]);
    AcceptanceKeeps(states[k], call);
    AcceptanceAcknowledges(states[k], call);
    AcceptanceSettles(states[k], call);
    InvSized(states[k]);
    InvNode(states[m], call.to);
  }

  /** The batch is held at every state in between. */
  lemma KeptAt(n: nat, states: seq<Cluster>, steps: seq<Step>, k: int, p: int, m: int, call: AppendCall)
    requires AcceptedAt(n, states, steps, k, m, call) && k < p <= m
    ensures Keeps(states[p], call)
  {
    hide Inv, IsCleanRun, CleanInv, AppendEntries, HoldsBatch, FromReign, InstallFits, Settled, Next, Grows;
    FirstKept(n, states, steps, k, m, call);
    TermsBetween(n, states, steps, k + 1, p, m, call.to);
    if IsCleanRun(n, states, steps) {
      RunGrows(n, states, steps, k + 1, p);
      FromReignStays(states[k + 1].past, states[p].past, call);
      AcksGrow(states[k + 1].past, states[p].past);
      CleanRunKeeps(n, states, steps, p);
      CleanKeeps(states[p], call);
    } else {
      assert InstallsFit(states, steps, k + 1, p, call);
      BatchStays(n, states, steps, k + 1, p, call);
    }
  }

  lemma {:induction false} SettledAt(n: nat, states: seq<Cluster>, steps: seq<Step>, k: int, p: int, m: int, call: AppendCall)
    requires AcceptedAt(n, states, steps, k, m, call) && k < p <= m
    ensures |states[p].nodes| == n && 0 <= call.to < n && Settled(states[p].nodes[call.to], call.args)
    decreases p
  {
    hide Inv, AppendEntries, Undisturbed, Settled, Perform, Enabled, HasPast, Keeps;
    FirstKept(n, states, steps, k, m, call);
    if p > k + 1 {
      SettledAt(n, states, steps, k, p - 1, m, call);
      KeptAt(n, states, steps, k, p - 1, m, call);
      KeptAt(n, states, steps, k, p, m, call);
      RunKeeps(n, states, steps, p - 1);
      RunKeeps(n, states, steps, p);
      assert Next(states[p - 1], steps[p - 1], states[p]);
      StepSettles(states[p - 1], steps[p - 1], call);
    }
  }

  /**
    Acknowledged entries stay: after a follower accepted a batch of the leader of its term, every
    later state in which it is still in that term holds the batch unchanged, whatever older or
    repeated AppendEntries arrived in between.
  */
  lemma AcknowledgedStays(n: nat, states: seq<Cluster>, steps: seq<Step>, k: int, m: int, call: AppendCall)
    requires AcceptedAt(n, states, steps, k, m, call)
    ensures 0 <= call.to < |states[m].past.log| && HoldsBatch(states[m].past.log[call.to], call.args)
  {
    hide HoldsBatch, Undisturbed, AppendEntries, Next;
    KeptAt(n, states, steps, k, m, m, call);
  }

  ghost predicate HoldsAt(s: Cluster, call: AppendCall) {
    0 <= call.to < |s.past.log| && HoldsBatch(s.past.log[call.to], call.args)
  }

  lemma HoldsKeeps(n: nat, states: seq<Cluster>, steps: seq<Step>, k: int, p: int, m: int, call: AppendCall)
    requires AcceptedIn(n, states, steps, k, m, call) && k < p <= m && HoldsAt(states[p], call)
    ensures Keeps(states[p], call)
  {
    hide Inv, AppendEntries, HoldsBatch, FromReign, Next, Grows;
    FirstKept(n, states, steps, k, m, call);
    TermsBetween(n, states, steps, k + 1, p, m, call.to);
    RunGrows(n, states, steps, k + 1, p);
    FromReignStays(states[k + 1].past, states[p].past, call);
  }

  lemma HeldInstallFits(n: nat, states: seq<Cluster>, steps: seq<Step>, k: int, p: int, m: int, call: AppendCall)
    requires AcceptedIn(n, states, steps, k, m, call) && k < p < m < |states| && p < |steps|
    requires HoldsAt(states[p], call) && HoldsAt(states[p + 1], call)
    ensures InstallFits(states[p], steps[p], call)
  {
    hide Inv, AppendEntries, HoldsAt, Perform, Enabled, HasPast, FromReign, HoldsBatch, InstallFits;
    HoldsKeeps(n, states, steps, k, p, m, call);
    HoldsKeeps(n, states, steps, k, p + 1, m, call);
    RunKeeps(n, states, steps, p);
    RunKeeps(n, states, steps, p + 1);
    InvSized(states[p]);
    InvSized(states[p + 1]);
    assert Next(states[p], steps[p], states[p + 1]);
    StepKeepsBatch(states[p], steps[p], call);
  }

  /** Exactly when: in any run, an accepted batch is held all through the term if and only if every snapshot installed meanwhile fits it. */
  lemma HeldIffInstallsFit(n: nat, states: seq<Cluster>, steps: seq<Step>, k: int, m: int, call: AppendCall)
    requires AcceptedIn(n, states, steps, k, m, call) && m <= |steps| < |states|
    ensures (forall p | k < p <= m :: HoldsAt(states[p], call)) <==> InstallsFit(states, steps, k + 1, m, call)
  {
    hide Inv, AppendEntries, HoldsBatch, InstallFits, Next;
    if InstallsFit(states, steps, k + 1, m, call) {
      forall p | k < p <= m ensures HoldsAt(states[p], call) {
        KeptAt(n, states, steps, k, p, m, call);
      }
    }
    if forall p | k < p <= m :: HoldsAt(states[p], call) {
      forall p | k + 1 <= p < m ensures InstallFits(states[p], steps[p], call) {
        HeldInstallFits(n, states, steps, k, p, m, call);
      }
    }
  }

  // ----- redelivery ------------------------------------------------------------------------

  /** A batch the log holds merges into nothing new. */
  lemma HeldMerges(log: Log, args: AppendArgs)
    requires HoldsBatch(log, args)
    ensures Merged(log, args.prevIndex, args.entries) == log
  {
    MergedAt(log, args.prevIndex, args.entries);
    var log' := Merged(log, args.prevIndex, args.entries);
    hide Merged;
    forall i | 0 <= i < |log| ensures log'[i] == log[i] {
      if args.prevIndex < i <= args.prevIndex + |args.entries| {
        assert log[args.prevIndex + 1 + (i - args.prevIndex - 1)] == args.entries[i - args.prevIndex - 1];
      }
    }
  }

  lemma AppendedSettled(nd: Node, log: Log, args: AppendArgs)
    requires Represents(nd, log) && Settled(nd, args)
    ensures 0 <= nd.snapIndex < |log| && Appended(nd, log, args) == nd
  {
    LastOfLog(nd, log);
  }

  lemma RedeliveredTo(s: Cluster, call: AppendCall)
    requires Inv(s) && Keeps(s, call) && 0 <= call.to < |s.nodes| && Settled(s.nodes[call.to], call.args)
    ensures var nd := s.nodes[call.to];
      AppendEntries(nd, call.args) ==
        if call.args.prevIndex < nd.snapIndex then (Exit(nd), Reject(nd, nd.snapIndex + 1))
        else (nd, AppendReply(nd.term, true, 0))
  {
    hide Inv, Sound, SelfAcks, NodeOk, FromReign, AppendEntries, HoldsBatch, Passes, Merged, Appended;
    var nd, log := s.nodes[call.to], s.past.log[call.to];
    InvNode(s, call.to);
    PrevAtLeastZero(s.past, nd, call);
    NodeRepresents(s.past, nd, call.to);
    if call.args.prevIndex < nd.snapIndex {
      StaleAppendExits(s.past, nd, call);
    } else {
      HeldPasses(s.past, nd, call);
      AcceptOk(s.past, nd, call);
      HeldMerges(log, call.args);
      AppendedSettled(nd, log, call.args);
    }
  }

  lemma NodeRepresents(h: History, nd: Node, v: int)
    requires Sized(h) && 0 <= v < |h.log| && NodeOk(h, nd, v)
    ensures Represents(nd, h.log[v]) && nd.term == h.term[v]
  {
  }

  lemma HeldPasses(h: History, nd: Node, call: AppendCall)
    requires Sound(h) && Sized(h) && 0 <= call.to < |h.log| && NodeOk(h, nd, call.to) && FromReign(h, call)
    requires HoldsBatch(h.log[call.to], call.args) && nd.status == Follower && nd.term == call.args.term
    requires 0 <= nd.snapIndex <= call.args.prevIndex
    ensures Passes(h, nd, call)
  {
    hide Sound, NodeOk, FromReign;
  }

  /**
    Repeats are harmless: as long as the follower that accepted a batch is in the batch's term,
    delivering it again answers success and changes nothing at all, or, if the follower has
    compacted the entry before the batch, ends in the exit.
  */
  lemma RepeatChangesNothing(n: nat, states: seq<Cluster>, steps: seq<Step>, k: int, m: int, call: AppendCall)
    requires AcceptedAt(n, states, steps, k, m, call)
    ensures 0 <= call.to < |states[m].nodes|
    ensures var nd := states[m].nodes[call.to];
      AppendEntries(nd, call.args) ==
        if call.args.prevIndex < nd.snapIndex then (Exit(nd), Reject(nd, nd.snapIndex + 1))
        else (nd, AppendReply(nd.term, true, 0))
  {
    hide Inv, AppendEntries, Settled, Keeps, Next, Undisturbed;
    RunKeeps(n, states, steps, m);
    KeptAt(n, states, steps, k, m, m, call);
    SettledAt(n, states, steps, k, m, m, call);
    RedeliveredTo(states[m], call);
  }
}
