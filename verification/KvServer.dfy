/**
  The key-value server's apply loop, on the skip list: what one message from Raft makes of the
  store, of the table of last requests and of the wait channels.
*/
module KvServerModule {
  import opened KvStore
  import opened SkipListNodes
  import opened SkipListModule

  /** What the apply channel carries; an empty snapshot is None. */
  datatype Message =
    | Command(op: Op, index: int)
    | Snapshot(content: Option<(seq<int>, map<string, int>)>, index: int)

  /** The server's state: store and table, the installed snapshot's index, the wait channels. */
  datatype Applied = Applied(store: Store, floor: int, channels: map<int, seq<Op>>)

  /** What one message makes of it. */
  function Consume(a: Applied, m: Message, asText: int -> string): Applied {
    match m
    case Command(op, index) =>
      if index <= a.floor then a
      else Applied(Apply(a.store, op), a.floor,
                   if index in a.channels then a.channels[index := a.channels[index] + [op]] else a.channels)
    case Snapshot(content, index) =>
      a.(floor := index, store := match content
                                  case None => a.store
                                  case Some(s) => Store(Loaded(a.store.data, s.0, asText), s.1))
  }

  /** What a stream of messages makes of the state. */
  function ConsumeAll(a: Applied, msgs: seq<Message>, asText: int -> string): Applied {
    if msgs == [] then a else Consume(ConsumeAll(a, msgs[..|msgs| - 1], asText), msgs[|msgs| - 1], asText)
  }

  /** The commands of a stream that lie above the floor, in order. */
  function Above(msgs: seq<Message>, floor: int): seq<Op> {
    if msgs == [] then []
    else
      var m := msgs[|msgs| - 1];
      Above(msgs[..|msgs| - 1], floor) + (if m.Command? && m.index > floor then [m.op] else [])
  }

  /**
    Between snapshots the store and the table are the replay of the commands above the last
    installed one: the server runs the state machine whose retries are idempotent.
  */
  lemma {:induction false} CommandsReplay(a: Applied, msgs: seq<Message>, asText: int -> string)
    requires forall m | m in msgs :: m.Command?
    ensures var b := ConsumeAll(a, msgs, asText);
      && b.store == Replay(a.store, Above(msgs, a.floor)) && b.floor == a.floor && b.channels.Keys == a.channels.Keys
      && TableLeft(a.store, Above(msgs, a.floor), b.store) && DataLeft(a.store, Above(msgs, a.floor), b.store)
    decreases |msgs|
  {
    hide TableLeft, DataLeft;
    ReplayLeaves(a.store, Above(msgs, a.floor));
    if msgs != [] {
      var n := |msgs| - 1;
      CommandsReplay(a, msgs[..n], asText);
      if msgs[n].index > a.floor {
        ReplayOne(a.store, Above(msgs[..n], a.floor), msgs[n].op);
      } else {
        assert Above(msgs, a.floor) == Above(msgs[..n], a.floor);
      }
    }
  }

  /** Whoever waits on an index gets the commands delivered with it, in order, and no other. */
  lemma {:induction false} ChannelsHear(a: Applied, msgs: seq<Message>, asText: int -> string, index: int)
    requires index in a.channels && forall m | m in msgs :: m.Command?
    ensures var b := ConsumeAll(a, msgs, asText);
      && index in b.channels && b.floor == a.floor
      && b.channels[index] == a.channels[index] + (if index <= a.floor then [] else DeliveredAt(msgs, index))
    decreases |msgs|
  {
    if msgs != [] {
      ChannelsHear(a, msgs[..|msgs| - 1], asText, index);
    }
  }

  /** The commands a stream delivers with an index. */
  function DeliveredAt(msgs: seq<Message>, index: int): seq<Op> {
    if msgs == [] then []
    else
      var m := msgs[|msgs| - 1];
      DeliveredAt(msgs[..|msgs| - 1], index) + (if m.Command? && m.index == index then [m.op] else [])
  }

  class KvServer {
    const skipList: SkipList
    var lastRequestId: map<string, int>
    /** The channel of each Raft index some handler waits on, as the operations pushed and not yet popped. */
    var waitApplyCh: map<int, seq<Op>>
    var lastSnapShotRaftLogIndex: int

    ghost predicate Valid()
      reads this, skipList, skipList.Arrays()
    {
      skipList.Valid() && this as object !in skipList.Arrays()
    }

    ghost function State(): Store
      requires Sorted(skipList.chain)
      reads this, skipList
    {
      Store(skipList.Model(), lastRequestId)
    }

    constructor ()
      ensures Valid() && State() == Store(map[], map[]) && waitApplyCh == map[] && lastSnapShotRaftLogIndex == 0
      ensures fresh(skipList) && fresh(skipList.Arrays())
    {
      skipList := new SkipList(6);
      lastRequestId, waitApplyCh, lastSnapShotRaftLogIndex := map[], map[], 0;
    }

    predicate IfRequestDuplicate(client: string, request: int)
      reads this
    {
      client in lastRequestId && request <= lastRequestId[client]
    }

    method ExecutePutOpOnKVDB(op: Op)
      requires Valid()
      modifies this, skipList, skipList.Arrays()
      ensures Valid() && fresh(skipList.Arrays() - old(skipList.Arrays()))
      ensures State() == Store(old(State()).data[op.key := op.value], old(State()).last[op.client := op.request])
      ensures waitApplyCh == old(waitApplyCh) && lastSnapShotRaftLogIndex == old(lastSnapShotRaftLogIndex)
    {
      hide SkipList.Valid, Contents, Sorted;
      skipList.InsertSetElement(op.key, op.value);
      lastRequestId := lastRequestId[op.client := op.request];
    }

    /** As the program has it, an Append overwrites like a Put. */
    method ExecuteAppendOpOnKVDB(op: Op)
      requires Valid()
      modifies this, skipList, skipList.Arrays()
      ensures Valid() && fresh(skipList.Arrays() - old(skipList.Arrays()))
      ensures State() == Store(old(State()).data[op.key := op.value], old(State()).last[op.client := op.request])
      ensures waitApplyCh == old(waitApplyCh) && lastSnapShotRaftLogIndex == old(lastSnapShotRaftLogIndex)
    {
      hide SkipList.Valid, Contents, Sorted;
      skipList.InsertSetElement(op.key, op.value);
      lastRequestId := lastRequestId[op.client := op.request];
    }

    /** A Get reads the store, and sets the client's last request whatever it was. */
    method ExecuteGetOpOnKVDB(op: Op) returns (value: string, exist: bool)
      requires Valid()
      modifies this`lastRequestId
      ensures Valid()
      ensures State() == Store(old(State()).data, old(State()).last[op.client := op.request])
      ensures exist <==> op.key in State().data
      ensures value == if exist then State().data[op.key] else ""
    {
      hide SkipList.Valid, Contents, Sorted;
      value, exist := "", false;
      var found, stored := skipList.SearchElement(op.key);
      if found {
        value, exist := stored, true;
      }
      lastRequestId := lastRequestId[op.client := op.request];
    }

    method SendMessageToWaitChan(op: Op, raftIndex: int) returns (sent: bool)
      modifies this`waitApplyCh
      ensures sent <==> raftIndex in old(waitApplyCh)
      ensures waitApplyCh == if sent then old(waitApplyCh)[raftIndex := old(waitApplyCh)[raftIndex] + [op]] else old(waitApplyCh)
    {
      if raftIndex !in waitApplyCh {
        return false;
      }
      waitApplyCh := waitApplyCh[raftIndex := waitApplyCh[raftIndex] + [op]];
      return true;
    }

    /**
      One committed command.  A command at or below the installed snapshot is dropped; any other is
      applied as `Apply` says and then handed to whoever waits on its index.
    */
    method GetCommandFromRaft(op: Op, commandIndex: int)
      requires Valid()
      modifies this, skipList, skipList.Arrays()
      ensures Valid() && fresh(skipList.Arrays() - old(skipList.Arrays()))
      ensures lastSnapShotRaftLogIndex == old(lastSnapShotRaftLogIndex)
      ensures State() == if commandIndex <= lastSnapShotRaftLogIndex then old(State()) else Apply(old(State()), op)
      ensures var before := old(State());
        State() ==
          if commandIndex <= lastSnapShotRaftLogIndex || op.kind == Get
             || (op.client in before.last && op.request <= before.last[op.client]) then before
          else Store(before.data[op.key := op.value], before.last[op.client := op.request])
      ensures waitApplyCh ==
        if commandIndex > lastSnapShotRaftLogIndex && commandIndex in old(waitApplyCh) then
          old(waitApplyCh)[commandIndex := old(waitApplyCh)[commandIndex] + [op]]
        else old(waitApplyCh)
    {
      hide SkipList.Valid, Contents, Sorted;
      if commandIndex <= lastSnapShotRaftLogIndex {
        return;
      }
      if !IfRequestDuplicate(op.client, op.request) {
        if op.kind == Put {
          ExecutePutOpOnKVDB(op);
        }
        if op.kind == Append {
          ExecuteAppendOpOnKVDB(op);
        }
      }
      var sent := SendMessageToWaitChan(op, commandIndex);
    }

    /**
      A snapshot from Raft: unless it is empty, its table replaces the table and its keys are loaded
      into the store as it stands, each with itself for a value.
    */
    method GetSnapShotFromRaft(snapshot: Option<(seq<int>, map<string, int>)>, snapshotIndex: int, asText: int -> string)
      requires Valid()
      modifies this, skipList, skipList.Arrays()
      ensures Valid() && fresh(skipList.Arrays() - old(skipList.Arrays()))
      ensures State() == match snapshot
        case None => old(State())
        case Some(s) => Store(Loaded(old(State()).data, s.0, asText), s.1)
      ensures lastSnapShotRaftLogIndex == snapshotIndex && waitApplyCh == old(waitApplyCh)
    {
      hide SkipList.Valid, Contents, Sorted;
      if snapshot.Some? {
        lastRequestId := snapshot.value.1;
        skipList.Load(snapshot.value.0, asText);
      }
      lastSnapShotRaftLogIndex := snapshotIndex;
    }

    ghost function Inside(): Applied
      requires Sorted(skipList.chain)
      reads this, skipList
    {
      Applied(State(), lastSnapShotRaftLogIndex, waitApplyCh)
    }

    /** The apply loop over the messages Raft sends up. */
    method ReadRaftApplyCommandLoop(msgs: seq<Message>, asText: int -> string)
      requires Valid()
      modifies this, skipList, skipList.Arrays()
      ensures Valid() && fresh(skipList.Arrays() - old(skipList.Arrays()))
      ensures Inside() == ConsumeAll(old(Inside()), msgs, asText)
      ensures (forall m | m in msgs :: m.Command?) ==>
        TableLeft(old(State()), Above(msgs, old(lastSnapShotRaftLogIndex)), State())
        && DataLeft(old(State()), Above(msgs, old(lastSnapShotRaftLogIndex)), State())
    {
      hide Built, Linked, Topped, Contents, Sorted, Apply, Loaded, TableLeft, DataLeft;
      for i := 0 to |msgs|
        invariant Valid() && fresh(skipList.Arrays() - old(skipList.Arrays()))
        invariant Inside() == ConsumeAll(old(Inside()), msgs[..i], asText)
      {
        assert msgs[..i + 1][..i] == msgs[..i];
        match msgs[i]
        case Command(op, index) => GetCommandFromRaft(op, index);
        case Snapshot(content, index) => GetSnapShotFromRaft(content, index, asText);
      }
      assert msgs[..|msgs|] == msgs;
      if forall m | m in msgs :: m.Command? {
        CommandsReplay(old(Inside()), msgs, asText);
      }
    }

    /** Opens the channel of an index, unless it is open already. */
    method OpenChannel(raftIndex: int)
      modifies this`waitApplyCh
      ensures waitApplyCh == if raftIndex in old(waitApplyCh) then old(waitApplyCh) else old(waitApplyCh)[raftIndex := []]
    {
      if raftIndex !in waitApplyCh {
        waitApplyCh := waitApplyCh[raftIndex := []];
      }
    }

    /** How a waiting PutAppend answers: by the operation popped, or after a timeout by the table. */
    method AnswerPutAppend(op: Op, popped: Option<Op>) returns (ok: bool)
      ensures ok <==> match popped
        case Some(committed) => IdOf(committed) == IdOf(op)
        case None => op.client in lastRequestId && op.request <= lastRequestId[op.client]
    {
      match popped
      case None => ok := IfRequestDuplicate(op.client, op.request);
      case Some(committed) => ok := committed.client == op.client && committed.request == op.request;
    }
  }
}
