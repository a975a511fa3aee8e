/**
  A proposal over a whole run: wherever and whenever an entry with the index and the term that `Start`
  returned turns up, it is the proposed one, and a server that delivers that entry sends up the
  proposed command with the returned index.
*/
module RaftProposals {
  import opened RaftLog
  import opened RaftHistory
  import opened RaftNode
  import opened RaftCluster
  import opened RaftInvariant
  import opened RaftReplicationSteps
  import opened RaftSnapshotSteps
  import opened RaftSafety
  import opened RaftAnswers

  /** Step k is a leader's proposal, and `Start` returned this index and term. */
  ghost predicate ProposedAt(n: nat, states: seq<Cluster>, steps: seq<Step>, k: int, i: int, command: string, index: int, term: int) {
    && IsRun(n, states, steps) && 0 <= k < |steps| && steps[k] == Propose(i, command)
    && 0 <= i < |states[k].nodes| && states[k].nodes[i].status == Leader
    && Start(states[k].nodes[i], command) == (Start(states[k].nodes[i], command).0, index, term, true)
  }

  lemma StepProposes(s: Cluster, i: int, command: string)
    requires Enabled(s, Propose(i, command)) && HasPast(s, i)
    ensures Perform(s, Propose(i, command)).nodes == s.nodes[i := Start(s.nodes[i], command).0]
  {
  }

  /** After the step the leader's log holds the entry, at the returned index and in the returned term. */
  lemma ProposedLogged(n: nat, states: seq<Cluster>, steps: seq<Step>, k: int, i: int, command: string, index: int, term: int)
    requires ProposedAt(n, states, steps, k, i, command, index, term)
    ensures k + 1 < |states| && InCluster(states[k + 1], Entry(index, term, command))
  {
    hide Inv, Enabled, HasPast, Perform, Start, Represents, IndexSpace, Sound, SelfAcks, VoteKnown, Leads;
    RunKeeps(n, states, steps, k);
    InvNode(states[k], i);
    assert Next(states[k], steps[k], states[k + 1]);
    StepPast(states[k], i, command);
    StepProposes(states[k], i, command);
    var nd, nd' := states[k].nodes[i], Start(states[k].nodes[i], command).0;
    StartPuts(nd, states[k].past.log[i], |states[k].past.log|, command);
    SlotIn(nd', index);
    assert states[k + 1].nodes[i] == nd' && Entry(index, term, command) in nd'.logs;
  }

  lemma StepPast(s: Cluster, i: int, command: string)
    requires HasPast(s, Actor(Propose(i, command)))
    ensures HasPast(s, i)
  {
  }

  lemma SlotIn(nd: Node, index: int)
    requires HasSlot(nd, index)
    ensures EntryAt(nd, index) in nd.logs
  {
  }

  /** Whoever holds an entry of that index and term holds the proposed one. */
  lemma ProposalIdentified(n: nat, states: seq<Cluster>, steps: seq<Step>, k: int, i: int, command: string, index: int, term: int, m: int, e: Entry)
    requires ProposedAt(n, states, steps, k, i, command, index, term)
    requires 0 <= m < |states| && InCluster(states[m], e) && e.index == index && e.term == term
    ensures e == Entry(index, term, command)
  {
    hide InCluster, Start;
    ProposedLogged(n, states, steps, k, i, command, index, term);
    EntryUniqueness(n, states, steps, k + 1, m, Entry(index, term, command), e);
  }

  lemma CommandsAt(log: Log, lo: int, hi: int, a: int)
    requires 0 <= lo <= hi < |log| && 0 <= a < |Commands(log, lo, hi)|
    ensures lo + 1 + a <= hi && Commands(log, lo, hi)[a] == Command(lo + 1 + a, log[lo + 1 + a].command)
    decreases hi - lo
  {
    if a > 0 {
      CommandsAt(log, lo + 1, hi, a - 1);
    }
  }

  /** A delivery sends up, for each slot it passes, the index and command of the entry there. */
  lemma DeliveredSlot(nd: Node, log: Log, n: nat, a: int)
    requires Represents(nd, log) && IndexSpace(nd, n) && 0 <= a < |GetApplyLogs(nd).1|
    ensures var m := GetApplyLogs(nd).1[a];
      && m.Command? && HasSlot(nd, m.index) && m == Command(m.index, EntryAt(nd, m.index).command) && EntryAt(nd, m.index).index == m.index
  {
    hide GetApplyLogs, Commands;
    GetApplyLogsIs(nd, log, n);
    SnapApplied(nd, n);
    CommandsAt(log, nd.lastApplied, nd.commitIndex, a);
    Represented(nd, log);
    ShapedAt(log, GetApplyLogs(nd).1[a].index);
  }

  lemma SnapApplied(nd: Node, n: nat)
    requires IndexSpace(nd, n)
    ensures nd.snapIndex <= nd.lastApplied
  {
  }

  lemma ShapedAt(log: Log, i: int)
    requires Shaped(log) && 0 <= i < |log|
    ensures log[i].index == i
  {
  }

  /** What is sent up for an entry of the returned index and term is the proposed command, with the returned index. */
  lemma ProposalDelivered(n: nat, states: seq<Cluster>, steps: seq<Step>, k: int, i: int, command: string, index: int, term: int, m: int, v: int, a: int)
    requires ProposedAt(n, states, steps, k, i, command, index, term)
    requires 0 <= m < |states| && 0 <= v < |states[m].nodes| && 0 <= a < |GetApplyLogs(states[m].nodes[v]).1|
    requires HasSlot(states[m].nodes[v], index) && EntryAt(states[m].nodes[v], index).term == term
    requires GetApplyLogs(states[m].nodes[v]).1[a].index == index
    ensures GetApplyLogs(states[m].nodes[v]).1[a] == Command(index, command)
  {
    hide Inv, Start, GetApplyLogs, ProposedAt, Represents, IndexSpace, Sound, SelfAcks, VoteKnown, Leads;
    var nd := states[m].nodes[v];
    RunOf(n, states, steps, k, i, command, index, term);
    RunKeeps(n, states, steps, m);
    InvNode(states[m], v);
    DeliveredSlot(nd, states[m].past.log[v], |states[m].past.log|, a);
    SlotIn(nd, index);
    ProposalIdentified(n, states, steps, k, i, command, index, term, m, EntryAt(nd, index));
  }

  lemma RunOf(n: nat, states: seq<Cluster>, steps: seq<Step>, k: int, i: int, command: string, index: int, term: int)
    requires ProposedAt(n, states, steps, k, i, command, index, term)
    ensures IsRun(n, states, steps)
  {
  }
}
