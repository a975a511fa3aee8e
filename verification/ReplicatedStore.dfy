/**
  Raft and the key-value server together: what the clean runs of the cluster guarantee of the
  streams sent up makes the stores of the replicas equal.
*/
module ReplicatedStore {
  import opened RaftNode
  import opened RaftCluster
  import opened RaftSafety
  import opened RaftApply
  import opened RaftCleanMerge
  import opened RaftTheorems
  import KV = KvStore
  import Server = KvServerModule

  type Dump = KV.Option<(seq<int>, map<string, int>)>

  /** A message as the apply loop reads it; `parse` and `unpack` are the two text formats. */
  function Heard(m: ApplyMsg, parse: string -> KV.Op, unpack: string -> Dump): Server.Message {
    match m
    case Command(index, command) => Server.Command(parse(command), index)
    case Snapshot(index, _, data) => Server.Snapshot(unpack(data), index)
  }

  function HeardAll(msgs: seq<ApplyMsg>, parse: string -> KV.Op, unpack: string -> Dump): (heard: seq<Server.Message>)
    ensures |heard| == |msgs| && forall i | 0 <= i < |msgs| :: heard[i] == Heard(msgs[i], parse, unpack)
  {
    seq(|msgs|, i requires 0 <= i < |msgs| => Heard(msgs[i], parse, unpack))
  }

  /** The first c messages are commands: no snapshot was pushed so far. */
  ghost predicate OnlyCommands(msgs: seq<ApplyMsg>, c: nat) {
    c <= |msgs| && forall i | 0 <= i < c :: msgs[i].Command?
  }

  lemma {:induction false} CommandsCount(msgs: seq<ApplyMsg>, c: nat)
    requires InOrder(msgs) && OnlyCommands(msgs, c)
    ensures High(msgs[..c]) == c && forall i | 0 <= i < c :: msgs[i].index == i + 1
    decreases c
  {
    if c > 0 {
      CommandsCount(msgs, c - 1);
      assert msgs[..c][..c - 1] == msgs[..c - 1];
    }
  }

  /**
    Replicated streams: in a clean disciplined run, two servers that have sent up only commands, c of
    them, have sent up the same ones, at whatever moments.
  */
  lemma StreamsAgree(n: nat, states: seq<Cluster>, steps: seq<Step>, k: int, v: int, m: int, w: int, c: nat)
    requires IsCleanRun(n, states, steps) && DisciplinedRun(n, states, steps) && 0 <= k < |states| && 0 <= m < |states|
    requires 0 <= v < n && 0 <= w < n && v < |states[k].stream| && w < |states[m].stream|
    requires OnlyCommands(states[k].stream[v], c) && OnlyCommands(states[m].stream[w], c)
    ensures states[k].stream[v][..c] == states[m].stream[w][..c]
  {
    hide IsCleanRun, DisciplinedRun, InOrder, High;
    InOrderAt(n, states, steps, k, v);
    InOrderAt(n, states, steps, m, w);
    CommandsCount(states[k].stream[v], c);
    CommandsCount(states[m].stream[w], c);
    forall i | 0 <= i < c ensures states[k].stream[v][i] == states[m].stream[w][i] {
      StateMachineSafety(n, states, steps, k, v, i, m, w, i);
    }
  }

  lemma InOrderAt(n: nat, states: seq<Cluster>, steps: seq<Step>, k: int, v: int)
    requires DisciplinedRun(n, states, steps) && 0 <= k < |states| && 0 <= v < n && v < |states[k].stream|
    ensures InOrder(states[k].stream[v])
  {
    hide DisciplinedRun, InOrder, High;
    RunSends(n, states, steps, k, v);
  }

  /**
    Replicated stores: in a clean disciplined run, two servers whose apply loops have each taken c
    commands, with no snapshot pushed, hold equal stores and equal tables of last requests, those of
    replaying the commands from nothing.
  */
  lemma ReplicasAgree(n: nat, states: seq<Cluster>, steps: seq<Step>, k: int, v: int, m: int, w: int, c: nat,
                      a: Server.Applied, b: Server.Applied, parse: string -> KV.Op, unpack: string -> Dump, asText: int -> string)
    requires IsCleanRun(n, states, steps) && DisciplinedRun(n, states, steps) && 0 <= k < |states| && 0 <= m < |states|
    requires 0 <= v < n && 0 <= w < n && v < |states[k].stream| && w < |states[m].stream|
    requires OnlyCommands(states[k].stream[v], c) && OnlyCommands(states[m].stream[w], c)
    requires a.store == b.store == KV.EMPTY && a.floor == b.floor == 0
    ensures var heard := HeardAll(states[k].stream[v][..c], parse, unpack);
      var heard' := HeardAll(states[m].stream[w][..c], parse, unpack);
      && heard == heard'
      && Server.ConsumeAll(a, heard, asText).store == Server.ConsumeAll(b, heard', asText).store
      && Server.ConsumeAll(a, heard, asText).store == KV.Replay(KV.EMPTY, Server.Above(heard, 0))
  {
    hide IsCleanRun, DisciplinedRun, Server.ConsumeAll, Server.Above, KV.Replay;
    StreamsAgree(n, states, steps, k, v, m, w, c);
    var heard := HeardAll(states[k].stream[v][..c], parse, unpack);
    assert forall x | x in heard :: x.Command?;
    Server.CommandsReplay(a, heard, asText);
    Server.CommandsReplay(b, heard, asText);
  }
}
