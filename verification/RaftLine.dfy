/**
  The line between clean and unclean deliveries, in terms of the logs alone: a delivery is clean if
  and only if the receiver's new log disputes no log any server ever had, where two logs dispute
  when they have the same term at an index and differ at or below it.
*/
module RaftLine {
  import opened RaftLog
  import opened RaftHistory
  import opened RaftConsensus
  import opened RaftNode
  import opened RaftCluster
  import opened RaftInvariant
  import opened RaftSafety
  import opened RaftClean
  import opened RaftCleanMerge
  import opened RaftTheorems

  /** The violation of Log Matching: the same term at x, and different entries at or below it. */
  ghost predicate Dispute(a: Log, b: Log, x: int) {
    0 <= x < |a| && x < |b| && a[x].term == b[x].term && exists y | 0 <= y <= x :: a[y] != b[y]
  }

  /** No server, at no moment up to state k, had a log that disputes this one. */
  ghost predicate Undisputed(states: seq<Cluster>, k: int, log: Log) {
    forall m, w, x | 0 <= m <= k && m < |states| && 0 <= w < |states[m].past.log| :: !Dispute(log, states[m].past.log[w], x)
  }

  /** Log w of state m is the log of the reign t as state k knows it. */
  ghost predicate WasLog(states: seq<Cluster>, m: int, w: int, log: Log) {
    0 <= m < |states| && 0 <= w < |states[m].past.log| && states[m].past.log[w] == log
  }

  /** A step that changes the log of a reign makes it the log of a server. */
  lemma ReignMoves(s: Cluster, step: Step, t: int)
    requires Inv(s) && Enabled(s, step) && HasPast(s, Actor(step)) && t in Perform(s, step).past.reign
    ensures var s' := Perform(s, step);
      || (t in s.past.reign && s'.past.reign[t] == s.past.reign[t])
      || (exists w | 0 <= w < |s'.past.log| :: s'.past.log[w] == s'.past.reign[t].log)
  {
    hide Inv, DoPropose, DoTakeVote, DoDeliverVote, DoDeliverAppend, DoTakeAppend, DoHeartBeat, DoCompact, DoSendSnapshot,
      DoDeliverSnapshot, DoTakeSnapshotAnswer, DoDeliver, DoElect;
    if step.Propose? {
      ProposeMoves(s, step.server, step.command, t);
    } else if step.TakeVote? {
      CountMoves(s, step.voteAnswer, t);
    } else {
      ReignStays(s, step);
    }
  }

  lemma ReignStays(s: Cluster, step: Step)
    requires Enabled(s, step) && HasPast(s, Actor(step)) && !step.Propose? && !step.TakeVote?
    ensures Perform(s, step).past.reign == s.past.reign
  {
    hide RequestVote, AppendEntries, CountAppend, InstallSnapshot, GetApplyLogs, TakeSnapshot, SnapshotAnswered, HeartBeatTo, Merged, Covered,
      DoPropose, DoTakeVote, Gets, Answers, NeedsSnapshot;
  }

  lemma ProposeMoves(s: Cluster, i: int, command: string, t: int)
    requires Up(s, i) && HasPast(s, i) && t in DoPropose(s, i, command).past.reign
    ensures var s' := DoPropose(s, i, command);
      || (t in s.past.reign && s'.past.reign[t] == s.past.reign[t])
      || (exists w | 0 <= w < |s'.past.log| :: s'.past.log[w] == s'.past.reign[t].log)
  {
    var s' := DoPropose(s, i, command);
    if !(t in s.past.reign && s'.past.reign[t] == s.past.reign[t]) {
      assert s'.past.log[i] == s'.past.reign[t].log;
    }
  }

  lemma CountMoves(s: Cluster, a: VoteAnswer, t: int)
    requires Enabled(s, TakeVote(a)) && HasPast(s, a.call.args.candidate) && t in DoTakeVote(s, a).past.reign
    ensures var s' := DoTakeVote(s, a);
      || (t in s.past.reign && s'.past.reign[t] == s.past.reign[t])
      || (exists w | 0 <= w < |s'.past.log| :: s'.past.log[w] == s'.past.reign[t].log)
  {
    hide CountVote;
    var c, s' := a.call.args.candidate, DoTakeVote(s, a);
    if !(t in s.past.reign && s'.past.reign[t] == s.past.reign[t]) {
      assert s'.past.log[c] == s'.past.reign[t].log;
    }
  }

  /** The log of a reign was some server's log at some moment of the run. */
  lemma {:induction false} ReignWasLog(n: nat, states: seq<Cluster>, steps: seq<Step>, k: int, t: int) returns (m: int, w: int)
    requires IsRun(n, states, steps) && 0 <= k < |states| && t in states[k].past.reign
    ensures m <= k && WasLog(states, m, w, states[k].past.reign[t].log)
    decreases k
  {
    hide Inv, Perform, Enabled, Actor, HasPast;
    if k == 0 {
      m, w := 0, 0;
      FirstReign(n, t);
    } else {
      assert Next(states[k - 1], steps[k - 1], states[k]);
      RunKeeps(n, states, steps, k - 1);
      ReignMoves(states[k - 1], steps[k - 1], t);
      if t in states[k - 1].past.reign && states[k].past.reign[t] == states[k - 1].past.reign[t] {
        m, w := ReignWasLog(n, states, steps, k - 1, t);
      } else {
        m := k;
        w :| 0 <= w < |states[k].past.log| && states[k].past.log[w] == states[k].past.reign[t].log;
      }
    }
  }

  lemma FirstReign(n: nat, t: int)
    requires n > 0 && t in Init(n).past.reign
    ensures 0 < |Init(n).past.log| && Init(n).past.log[0] == Init(n).past.reign[t].log
  {
  }

  /** An unmatched log of sourced entries disputes the log of a reign. */
  lemma UnmatchedDisputes(h: History, log: Log) returns (t: int, x: int)
    requires Sourced(h, log) && !Matched(h, log)
    ensures t in h.reign && Dispute(log, h.reign[t].log, x)
  {
    x :| 0 <= x < |log| && !(log[x].term in h.reign && Agree(log, h.reign[log[x].term].log, x));
    t := log[x].term;
  }

  lemma MatchedUndisputed(h: History, a: Log, b: Log, x: int)
    requires Matched(h, a) && Matched(h, b)
    ensures !Dispute(a, b, x)
  {
    if Dispute(a, b, x) {
      hide Matched;
      LogMatching(h, a, b, x);
    }
  }

  lemma SourcedLog(s: Cluster, v: int)
    requires Inv(s) && 0 <= v < |s.past.log|
    ensures Sourced(s.past, s.past.log[v])
  {
    InvSized(s);
    assert GoodLog(s.past, v);
    hide Inv;
  }

  lemma FirstPart(n: nat, states: seq<Cluster>, steps: seq<Step>, k: int)
    requires IsRun(n, states, steps) && 0 <= k < |steps| && CleanUpTo(states, steps, k)
    ensures IsCleanRun(n, states[..k + 1], steps[..k]) && IsRun(n, states[..k + 1], steps[..k])
  {
    hide Next, Enabled, Clean, CleanStep;
    forall p | 0 <= p < k
      ensures Next(states[..k + 1][p], steps[..k][p], states[..k + 1][p + 1]) && CleanStep(states[..k + 1][p], steps[..k][p])
    {
      assert Next(states[p], steps[p], states[p + 1]) && CleanStep(states[p], steps[p]);
    }
    CleanSteps(states[..k + 1], steps[..k]);
  }

  ghost predicate CleanStep(s: Cluster, step: Step) {
    Enabled(s, step) && Clean(s, step)
  }

  /** The first k steps of a run are clean. */
  ghost predicate CleanUpTo(states: seq<Cluster>, steps: seq<Step>, k: int) {
    forall p | 0 <= p < k && p < |steps| && p < |states| :: CleanStep(states[p], steps[p])
  }

  lemma CleanSteps(states: seq<Cluster>, steps: seq<Step>)
    requires |states| == |steps| + 1 && forall p | 0 <= p < |steps| :: CleanStep(states[p], steps[p])
    ensures forall p | 0 <= p < |steps| :: Enabled(states[p], steps[p]) && Clean(states[p], steps[p])
  {
    hide Enabled, Clean;
    forall p | 0 <= p < |steps| ensures Enabled(states[p], steps[p]) && Clean(states[p], steps[p]) {
      assert CleanStep(states[p], steps[p]);
    }
  }

  /** After clean steps, a log that one more step leaves is matched exactly when no earlier log disputes it. */
  lemma MatchedIffUndisputed(n: nat, states: seq<Cluster>, steps: seq<Step>, k: int, v: int)
    requires IsRun(n, states, steps) && 0 <= k < |steps| && CleanUpTo(states, steps, k)
    requires states[k + 1].past.reign == states[k].past.reign && 0 <= v < |states[k + 1].past.log|
    ensures Matched(states[k + 1].past, states[k + 1].past.log[v]) <==> Undisputed(states, k, states[k + 1].past.log[v])
  {
    hide IsRun, IsCleanRun, CleanUpTo, Matched, Grows, Inv, Sourced, Dispute;
    RunSizes(n, states, steps);
    var h', log := states[k + 1].past, states[k + 1].past.log[v];
    RunKeeps(n, states, steps, k + 1);
    SourcedLog(states[k + 1], v);
    if Matched(h', log) {
      FirstPart(n, states, steps, k);
      forall m, w, x | 0 <= m <= k && m < |states| && 0 <= w < |states[m].past.log| ensures !Dispute(log, states[m].past.log[w], x) {
        LogIsMatched(n, states[..k + 1], steps[..k], m, w);
        RunGrows(n, states, steps, m, k + 1);
        MatchedGrows(states[m].past, h', states[m].past.log[w]);
        MatchedUndisputed(h', log, states[m].past.log[w], x);
      }
    } else {
      var t, x := UnmatchedDisputes(h', log);
      var m, w := ReignWasLog(n, states, steps, k, t);
      assert Dispute(log, states[m].past.log[w], x);
    }
  }

  lemma RunSizes(n: nat, states: seq<Cluster>, steps: seq<Step>)
    requires IsRun(n, states, steps)
    ensures |states| == |steps| + 1
  {
  }

  lemma StateBefore(n: nat, states: seq<Cluster>, steps: seq<Step>, k: int)
    requires IsRun(n, states, steps) && 0 <= k < |steps| && CleanUpTo(states, steps, k)
    ensures CleanInv(states[k]) && Next(states[k], steps[k], states[k + 1])
  {
    hide IsCleanRun, CleanUpTo, CleanInv, Next;
    FirstPart(n, states, steps, k);
    CleanRunKeeps(n, states[..k + 1], steps[..k], k);
  }

  /**
    AppendEntries, exactly: after clean steps, delivering one leaves the receiver a log that disputes
    no log of the run so far if and only if it overwrites nothing or reaches the end of the log.
  */
  lemma AppendUndisputedIffClean(n: nat, states: seq<Cluster>, steps: seq<Step>, k: int, call: AppendCall)
    requires IsRun(n, states, steps) && 0 <= k < |steps| && CleanUpTo(states, steps, k)
    requires steps[k] == DeliverAppend(call) && 0 <= call.to < |states[k].nodes| && call.to < |states[k + 1].past.log|
    ensures Undisputed(states, k, states[k + 1].past.log[call.to]) <==> CleanAppend(states[k].nodes[call.to], call.args)
  {
    hide IsRun, CleanUpTo, CleanInv, Matched, Undisputed, CleanAppend, AppendEntries, Merged;
    RunSizes(n, states, steps);
    StateBefore(n, states, steps, k);
    AppendMatchedIffClean(states[k], call);
    MatchedIffUndisputed(n, states, steps, k, call.to);
  }

  /** InstallSnapshot, exactly: the same if and only if it keeps no suffix, or finds the snapshot's term at the snapshot's index. */
  lemma InstallUndisputedIffClean(n: nat, states: seq<Cluster>, steps: seq<Step>, k: int, call: SnapCall)
    requires IsRun(n, states, steps) && 0 <= k < |steps| && CleanUpTo(states, steps, k)
    requires steps[k] == DeliverSnapshot(call) && 0 <= call.task.to < |states[k].nodes| && call.task.to < |states[k + 1].past.log|
    ensures Undisputed(states, k, states[k + 1].past.log[call.task.to]) <==> CleanInstall(states[k].nodes[call.task.to], call.args)
  {
    hide IsRun, CleanUpTo, CleanInv, Matched, Undisputed, CleanInstall, InstallSnapshot, Covered;
    RunSizes(n, states, steps);
    StateBefore(n, states, steps, k);
    InstallMatchedIffClean(states[k], call);
    MatchedIffUndisputed(n, states, steps, k, call.task.to);
  }
}
