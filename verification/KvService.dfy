/**
  The key-value service as a step system: clients, handlers, apply loops and snapshots over the
  committed commands that every server receives in the same order.

  Raft installs a snapshot at once but pushes it from a thread of its own, so later commands may
  reach the apply loop before it.  An OK reply to a Put or Append means, however the steps
  interleave, that the server that answered executed the request, loaded a snapshot that covers it,
  or has one on its way that Raft has installed; in an orderly run the last case is out.
*/
module KvService {
  import opened KvStore

  /** A snapshot: the index of the last command it covers, and the state it holds. */
  datatype Snap = Snap(index: nat, store: Store)

  /**
    One server.  `front` is the index of the last command the apply loop took, `justTaken` says that it
    was the last message and was not dropped, `floor` is the index of the snapshot loaded last.
    `installed` is Raft's snapshot index, `flight` the snapshots it installed and has not pushed.
    `executed`, in order, and `loaded`, the highest snapshot index ever loaded, are history.
  */
  datatype Server = Server(
    store: Store, front: nat, justTaken: bool, floor: nat, installed: nat, flight: set<Snap>,
    channels: map<int, seq<Op>>, executed: seq<Id>, loaded: nat)

  /** A handler that waits for its operation on the channel of a Raft index. */
  datatype Handler = Handler(server: int, op: Op, index: int)

  /**
    `log[i - 1]` is the command Raft delivers with index i.  `reading` are the Get handlers that may
    answer and have not read yet.  `issued`, `returned` and `oks` are the clients' side: requests
    sent, requests whose call has returned, and the OK replies to updates.
  */
  datatype Service = Service(
    log: seq<Op>,
    servers: seq<Server>,
    waiting: set<Handler>,
    reading: set<Handler>,
    snaps: set<Snap>,
    issued: map<Id, Op>,
    returned: set<Id>,
    oks: set<(int, Id)>)

  datatype Step =
    | Issue(op: Op)
    | Commit(op: Op)
    | Wait(handler: Handler)
    | Deliver(server: int, index: nat)
    | Popped(handler: Handler, delivered: bool)
    | TimedOut(handler: Handler, isLeader: bool, delivered: bool)
    | Read(handler: Handler, delivered: bool)
    | MakeSnapshot(server: int)
    | RaftInstall(server: int, snap: Snap)
    | LoadSnapshot(server: int, snap: Snap, data: map<int, string>)

  const FRESH := Server(EMPTY, 0, false, 0, 0, {}, map[], [], 0)

  function Init(n: nat): Service {
    Service([], seq(n, _ => FRESH), {}, {}, {}, map[], {}, {})
  }

  predicate On(s: Service, i: int) {
    0 <= i < |s.servers|
  }

  predicate Open(s: Service, h: Handler) {
    h in s.waiting && On(s, h.server) && h.index in s.servers[h.server].channels
  }

  /** A clerk issues request k+1 only when request k has returned. */
  predicate NextRequest(s: Service, op: Op) {
    op.request >= 1 && IdOf(op) !in s.issued && (op.request > 1 ==> (op.client, op.request - 1) in s.returned)
  }

  function Max(a: int, b: int): (m: int) {
    if a > b then a else b
  }

  /** Commands come in order; those Raft has a snapshot for may be skipped. */
  predicate Deliverable(log: seq<Op>, v: Server, index: nat) {
    v.front < index <= |log| && index - 1 <= Max(v.front, v.installed)
  }

  predicate Enabled(s: Service, step: Step) {
    match step
    case Issue(op) => NextRequest(s, op)
    case Commit(op) => IdOf(op) in s.issued && s.issued[IdOf(op)] == op
    case Wait(h) => On(s, h.server) && IdOf(h.op) in s.issued && s.issued[IdOf(h.op)] == h.op
    case Deliver(i, index) => On(s, i) && Deliverable(s.log, s.servers[i], index)
    case Popped(h, _) => Open(s, h) && s.servers[h.server].channels[h.index] != []
    case TimedOut(h, _, _) => Open(s, h)
    case Read(h, _) => h in s.reading && On(s, h.server)
    case MakeSnapshot(i) => On(s, i) && s.servers[i].justTaken && s.servers[i].front > s.servers[i].installed
    case RaftInstall(i, snap) => On(s, i) && snap in s.snaps && snap.index > s.servers[i].installed
    case LoadSnapshot(i, snap, _) => On(s, i) && snap in s.servers[i].flight
  }

  /** One command: dropped under the floor, else applied unless a duplicate and pushed to the channel of its index. */
  function Receive(v: Server, op: Op, index: nat): Server {
    if index <= v.floor then v.(front := index, justTaken := false)
    else v.(
      store := Apply(v.store, op), front := index, justTaken := true,
      channels := if index in v.channels then v.channels[index := v.channels[index] + [op]] else v.channels,
      executed := if Executes(v.store, op) then v.executed + [IdOf(op)] else v.executed)
  }

  function Load(v: Server, snap: Snap, data: map<int, string>): Server {
    v.(store := Store(data, snap.store.last), floor := snap.index, justTaken := false,
       flight := v.flight - {snap}, loaded := Max(v.loaded, snap.index))
  }

  function ReadBy(store: Store, op: Op): Store {
    Store(store.data, store.last[op.client := op.request])
  }

  /** The handler leaves and its channel goes; an answer returns the call if it reaches the client. */
  function Leave(s: Service, h: Handler, answers: bool, delivered: bool): Service
    requires On(s, h.server)
  {
    var v := s.servers[h.server];
    s.(servers := s.servers[h.server := v.(channels := v.channels - {h.index})],
       waiting := s.waiting - {h},
       returned := if answers && delivered then s.returned + {IdOf(h.op)} else s.returned,
       oks := if answers && Updates(h.op) then s.oks + {(h.server, IdOf(h.op))} else s.oks)
  }

  /** A handler that may answer: an update answers at once, a Get goes on to read. */
  function Settle(s: Service, h: Handler, answers: bool, delivered: bool): Service
    requires On(s, h.server)
  {
    if answers && h.op.kind == Get then s.(waiting := s.waiting - {h}, reading := s.reading + {h})
    else Leave(s, h, answers, delivered)
  }

  /** A Get handler reads the store and marks the table, whatever stood there. */
  function Answer(s: Service, h: Handler, delivered: bool): Service
    requires On(s, h.server)
  {
    var v := s.servers[h.server];
    s.(servers := s.servers[h.server := v.(store := ReadBy(v.store, h.op), channels := v.channels - {h.index})],
       reading := s.reading - {h},
       returned := if delivered then s.returned + {IdOf(h.op)} else s.returned)
  }

  function Perform(s: Service, step: Step): Service
    requires Enabled(s, step)
  {
    match step
    case Issue(op) => s.(issued := s.issued[IdOf(op) := op])
    case Commit(op) => s.(log := s.log + [op])
    case Wait(h) =>
      var v := s.servers[h.server];
      var channels := if h.index in v.channels then v.channels else v.channels[h.index := []];
      s.(servers := s.servers[h.server := v.(channels := channels)], waiting := s.waiting + {h})
    case Deliver(i, index) => s.(servers := s.servers[i := Receive(s.servers[i], s.log[index - 1], index)])
    case Popped(h, delivered) =>
      var v := s.servers[h.server];
      var popped := v.channels[h.index][0];
      var s := s.(servers := s.servers[h.server := v.(channels := v.channels[h.index := v.channels[h.index][1..]])]);
      Settle(s, h, IdOf(popped) == IdOf(h.op), delivered)
    case TimedOut(h, isLeader, delivered) =>
      var known := Duplicate(s.servers[h.server].store, h.op.client, h.op.request);
      Settle(s, h, known && (h.op.kind == Get ==> isLeader), delivered)
    case Read(h, delivered) => Answer(s, h, delivered)
    case MakeSnapshot(i) =>
      var v := s.servers[i];
      s.(snaps := s.snaps + {Snap(v.front, v.store)}, servers := s.servers[i := v.(installed := v.front)])
    case RaftInstall(i, snap) =>
      var v := s.servers[i];
      s.(servers := s.servers[i := v.(installed := snap.index, flight := v.flight + {snap})])
    case LoadSnapshot(i, snap, data) => s.(servers := s.servers[i := Load(s.servers[i], snap, data)])
  }

  /** No command overtakes a snapshot: what a delivery skips, the apply loop has loaded. */
  predicate Orderly(s: Service, step: Step) {
    step.Deliver? && On(s, step.server) ==> step.index - 1 <= Max(s.servers[step.server].front, s.servers[step.server].loaded)
  }

  // ----- the invariant ---------------------------------------------------------------------
  //
  // `late` says that snapshots on their way count; without it the invariant is that of orderly runs.

  ghost predicate Occurs(log: seq<Op>, n: int, id: Id) {
    exists p | 0 <= p < n && p < |log| :: IdOf(log[p]) == id
  }

  /** The committed commands are issued requests, each after its client's previous one. */
  ghost predicate LogOk(log: seq<Op>, issued: map<Id, Op>) {
    forall p | 0 <= p < |log| ::
      && IdOf(log[p]) in issued && issued[IdOf(log[p])] == log[p] && log[p].request >= 1
      && (log[p].request > 1 ==> Occurs(log, p, (log[p].client, log[p].request - 1)))
  }

  ghost predicate IssuedOk(log: seq<Op>, issued: map<Id, Op>, returned: set<Id>) {
    && (forall id | id in issued :: IdOf(issued[id]) == id && id.1 >= 1)
    && (forall id | id in issued && id.1 > 1 :: Occurs(log, |log|, (id.0, id.1 - 1)))
    && (forall id | id in returned :: Occurs(log, |log|, id))
  }

  /** Every entry of a table names a request within the first n commands. */
  ghost predicate TableOk(log: seq<Op>, n: int, last: map<string, int>) {
    forall c | c in last :: Occurs(log, n, (c, last[c]))
  }

  /** How far a server is: past the last command taken and the last snapshot. */
  function Reach(v: Server, late: bool): int {
    Max(v.front, if late then v.installed else v.loaded)
  }

  ghost predicate OnItsWay(v: Server, p: int) {
    exists snap | snap in v.flight :: p < snap.index
  }

  /** The request at position p was executed here, or a snapshot loaded here, or on its way here, covers it. */
  ghost predicate Backed(log: seq<Op>, v: Server, p: int, late: bool)
    requires 0 <= p < |log|
  {
    IdOf(log[p]) in v.executed || p < v.loaded || (late && OnItsWay(v, p))
  }

  ghost predicate Held(log: seq<Op>, v: Server, id: Id, late: bool) {
    exists p | 0 <= p < |log| :: IdOf(log[p]) == id && Backed(log, v, p, late)
  }

  ghost predicate UpdatesHeld(log: seq<Op>, v: Server, n: int, late: bool) {
    forall p | 0 <= p < n && p < |log| && Updates(log[p]) :: Held(log, v, IdOf(log[p]), late)
  }

  ghost predicate ChannelsOk(log: seq<Op>, v: Server) {
    forall i | i in v.channels && v.channels[i] != [] ::
      1 <= i <= v.front <= |log| && forall op | op in v.channels[i] :: op == log[i - 1]
  }

  ghost predicate ServerOk(log: seq<Op>, v: Server, late: bool) {
    && v.front <= |log| && v.floor <= v.loaded <= v.installed <= |log|
    && TableOk(log, Reach(v, late), v.store.last)
    && UpdatesHeld(log, v, Reach(v, late), late)
    && ChannelsOk(log, v)
    && (forall snap | snap in v.flight :: snap.index <= v.installed && TableOk(log, snap.index, snap.store.last))
  }

  ghost predicate IsIssued(issued: map<Id, Op>, op: Op) {
    IdOf(op) in issued && issued[IdOf(op)] == op
  }

  ghost predicate Inv(s: Service, late: bool) {
    && LogOk(s.log, s.issued) && IssuedOk(s.log, s.issued, s.returned)
    && (forall i | 0 <= i < |s.servers| :: ServerOk(s.log, s.servers[i], late))
    && (forall h | h in s.waiting :: IsIssued(s.issued, h.op))
    && (forall h | h in s.reading :: On(s, h.server) && Occurs(s.log, Reach(s.servers[h.server], late), IdOf(h.op)))
    && (forall snap | snap in s.snaps :: snap.index <= |s.log| && TableOk(s.log, snap.index, snap.store.last))
    && (forall ok | ok in s.oks :: On(s, ok.0) && Held(s.log, s.servers[ok.0], ok.1, late))
  }

  /** A client's earlier requests come before a later one. */
  lemma {:induction false} Earlier(log: seq<Op>, issued: map<Id, Op>, n: int, c: string, r: int, k: int)
    requires LogOk(log, issued) && Occurs(log, n, (c, r)) && 1 <= k <= r
    ensures Occurs(log, n, (c, k))
    decreases r - k
  {
    if k < r {
      var p :| 0 <= p < n && p < |log| && IdOf(log[p]) == (c, r);
      assert Occurs(log, p, (c, r - 1));
      Earlier(log, issued, p, c, r - 1, k);
      var q :| 0 <= q < p && q < |log| && IdOf(log[q]) == (c, k);
      assert 0 <= q < n && q < |log|;
    }
  }

  /** A request the table calls a duplicate is within reach here. */
  lemma DuplicateReached(log: seq<Op>, issued: map<Id, Op>, v: Server, late: bool, client: string, request: int)
    requires LogOk(log, issued) && ServerOk(log, v, late) && Duplicate(v.store, client, request) && request >= 1
    ensures Occurs(log, Reach(v, late), (client, request))
  {
    Earlier(log, issued, Reach(v, late), client, v.store.last[client], request);
  }

  /** An update within reach is held. */
  lemma ReachedHeld(log: seq<Op>, issued: map<Id, Op>, v: Server, late: bool, op: Op)
    requires LogOk(log, issued) && ServerOk(log, v, late) && Occurs(log, Reach(v, late), IdOf(op)) && Updates(op)
    requires IsIssued(issued, op)
    ensures Held(log, v, IdOf(op), late)
  {
    var p :| 0 <= p < Reach(v, late) && p < |log| && IdOf(log[p]) == IdOf(op);
    assert log[p] == op;
    hide Held;
  }

  lemma OccursSooner(log: seq<Op>, n: int, m: int, id: Id)
    requires Occurs(log, n, id) && n <= m
    ensures Occurs(log, m, id)
  {
    var p :| 0 <= p < n && p < |log| && IdOf(log[p]) == id;
    assert p < m;
  }

  lemma TableSooner(log: seq<Op>, n: int, m: int, last: map<string, int>)
    requires TableOk(log, n, last) && n <= m
    ensures TableOk(log, m, last)
  {
    forall c | c in last ensures Occurs(log, m, (c, last[c])) {
      OccursSooner(log, n, m, (c, last[c]));
    }
  }

  // ----- the log grows ---------------------------------------------------------------------

  lemma OccursLonger(log: seq<Op>, op: Op, n: int, id: Id)
    requires Occurs(log, n, id)
    ensures Occurs(log + [op], n, id)
  {
    var p :| 0 <= p < n && p < |log| && IdOf(log[p]) == id;
    assert IdOf((log + [op])[p]) == id;
  }

  lemma LogLonger(log: seq<Op>, issued: map<Id, Op>, op: Op)
    requires LogOk(log, issued) && IsIssued(issued, op) && op.request >= 1
    requires op.request > 1 ==> Occurs(log, |log|, (op.client, op.request - 1))
    ensures LogOk(log + [op], issued)
  {
    forall p | 0 <= p < |log + [op]| && (log + [op])[p].request > 1
      ensures Occurs(log + [op], p, ((log + [op])[p].client, (log + [op])[p].request - 1))
    {
      if p < |log| {
        OccursLonger(log, op, p, (log[p].client, log[p].request - 1));
      } else {
        OccursLonger(log, op, |log|, (op.client, op.request - 1));
      }
    }
  }

  lemma TableLonger(log: seq<Op>, op: Op, n: int, last: map<string, int>)
    requires TableOk(log, n, last)
    ensures TableOk(log + [op], n, last)
  {
    forall c | c in last ensures Occurs(log + [op], n, (c, last[c])) {
      OccursLonger(log, op, n, (c, last[c]));
    }
  }

  lemma ServerLonger(log: seq<Op>, op: Op, v: Server, late: bool)
    requires ServerOk(log, v, late)
    ensures ServerOk(log + [op], v, late)
  {
    TableLonger(log, op, Reach(v, late), v.store.last);
    forall snap | snap in v.flight ensures TableOk(log + [op], snap.index, snap.store.last) {
      TableLonger(log, op, snap.index, snap.store.last);
    }
    hide TableOk, Held, Backed;
    forall p | 0 <= p < Reach(v, late) && p < |log + [op]| && Updates((log + [op])[p]) ensures Held(log + [op], v, IdOf((log + [op])[p]), late) {
      assert Updates(log[p]);
      HeldLonger(log, op, v, IdOf(log[p]), late);
    }
  }

  lemma HeldLonger(log: seq<Op>, op: Op, v: Server, id: Id, late: bool)
    requires Held(log, v, id, late)
    ensures Held(log + [op], v, id, late)
  {
    var p :| 0 <= p < |log| && IdOf(log[p]) == id && Backed(log, v, p, late);
    assert IdOf((log + [op])[p]) == id && Backed(log + [op], v, p, late);
  }

  lemma IssuedLonger(log: seq<Op>, issued: map<Id, Op>, returned: set<Id>, op: Op)
    requires IssuedOk(log, issued, returned)
    ensures IssuedOk(log + [op], issued, returned)
  {
    var log' := log + [op];
    forall id | id in issued && id.1 > 1 ensures Occurs(log', |log'|, (id.0, id.1 - 1)) {
      OccursLonger(log, op, |log|, (id.0, id.1 - 1));
      OccursSooner(log', |log|, |log'|, (id.0, id.1 - 1));
    }
    forall id | id in returned ensures Occurs(log', |log'|, id) {
      OccursLonger(log, op, |log|, id);
      OccursSooner(log', |log|, |log'|, id);
    }
  }

  lemma CommitInv(s: Service, op: Op, late: bool)
    requires Inv(s, late) && Enabled(s, Commit(op))
    ensures Inv(Perform(s, Commit(op)), late)
  {
    var s' := Perform(s, Commit(op));
    LogLonger(s.log, s.issued, op);
    IssuedLonger(s.log, s.issued, s.returned, op);
    hide LogOk, IssuedOk, ServerOk, TableOk, Occurs, Held, IsIssued, Reach;
    forall i | 0 <= i < |s.servers| ensures ServerOk(s'.log, s.servers[i], late) {
      ServerLonger(s.log, op, s.servers[i], late);
    }
    forall snap | snap in s.snaps ensures TableOk(s'.log, snap.index, snap.store.last) {
      TableLonger(s.log, op, snap.index, snap.store.last);
    }
    forall h | h in s.reading ensures Occurs(s'.log, Reach(s.servers[h.server], late), IdOf(h.op)) {
      OccursLonger(s.log, op, Reach(s.servers[h.server], late), IdOf(h.op));
    }
    forall ok | ok in s.oks ensures Held(s'.log, s.servers[ok.0], ok.1, late) {
      HeldLonger(s.log, op, s.servers[ok.0], ok.1, late);
    }
  }

  lemma LogIssued(log: seq<Op>, issued: map<Id, Op>, returned: set<Id>, op: Op)
    requires LogOk(log, issued) && IssuedOk(log, issued, returned) && IdOf(op) !in issued && op.request >= 1
    requires op.request > 1 ==> (op.client, op.request - 1) in returned
    ensures LogOk(log, issued[IdOf(op) := op]) && IssuedOk(log, issued[IdOf(op) := op], returned)
  {
    hide Occurs;
  }

  lemma InvIssued(s: Service, late: bool)
    requires Inv(s, late)
    ensures LogOk(s.log, s.issued) && IssuedOk(s.log, s.issued, s.returned)
    ensures forall h | h in s.waiting :: IsIssued(s.issued, h.op)
  {
  }

  /** More requests issued. */
  lemma IssuedInv(s: Service, issued: map<Id, Op>, late: bool)
    requires Inv(s, late) && LogOk(s.log, issued) && IssuedOk(s.log, issued, s.returned)
    requires forall h | h in s.waiting :: IsIssued(issued, h.op)
    ensures Inv(s.(issued := issued), late)
  {
    hide LogOk, IssuedOk, ServerOk, TableOk, Occurs, Held, Reach, IsIssued;
  }

  lemma IssueInv(s: Service, op: Op, late: bool)
    requires Inv(s, late) && Enabled(s, Issue(op))
    ensures Inv(Perform(s, Issue(op)), late)
  {
    hide Inv, LogOk, IssuedOk, Occurs;
    InvIssued(s, late);
    LogIssued(s.log, s.issued, s.returned, op);
    IssuedInv(s, s.issued[IdOf(op) := op], late);
  }

  // ----- one server changes ----------------------------------------------------------------

  /** The server goes on from v to v': nothing backed is lost, and it reaches no less far. */
  ghost predicate GoesOn(log: seq<Op>, v: Server, v': Server, late: bool) {
    && Reach(v, late) <= Reach(v', late)
    && forall p | 0 <= p < |log| && Backed(log, v, p, late) :: Backed(log, v', p, late)
  }

  lemma StaysOn(log: seq<Op>, v: Server, v': Server, late: bool)
    requires v'.front == v.front && v'.installed == v.installed && v'.loaded == v.loaded
    requires v'.flight == v.flight && v'.executed == v.executed
    ensures GoesOn(log, v, v', late)
  {
  }

  lemma HeldOn(log: seq<Op>, v: Server, v': Server, id: Id, late: bool)
    requires GoesOn(log, v, v', late) && Held(log, v, id, late)
    ensures Held(log, v', id, late)
  {
    var p :| 0 <= p < |log| && IdOf(log[p]) == id && Backed(log, v, p, late);
    assert Backed(log, v', p, late);
  }

  lemma ReachOn(log: seq<Op>, v: Server, v': Server, late: bool)
    requires GoesOn(log, v, v', late)
    ensures Reach(v, late) <= Reach(v', late)
  {
  }

  /** One server changed, nothing else the invariant looks at but who waits and the snapshots. */
  lemma ServerChanged(s: Service, s': Service, i: int, v: Server, late: bool)
    requires Inv(s, late) && On(s, i) && ServerOk(s.log, v, late) && GoesOn(s.log, s.servers[i], v, late)
    requires s' == s.(servers := s.servers[i := v], waiting := s'.waiting, snaps := s'.snaps)
    requires forall h | h in s'.waiting :: IsIssued(s.issued, h.op)
    requires forall snap | snap in s'.snaps :: snap.index <= |s.log| && TableOk(s.log, snap.index, snap.store.last)
    ensures Inv(s', late)
  {
    hide ServerOk, LogOk, IssuedOk, TableOk, Occurs, Held, GoesOn, Reach, IsIssued;
    ReachOn(s.log, s.servers[i], v, late);
    forall h | h in s'.reading ensures Occurs(s.log, Reach(s'.servers[h.server], late), IdOf(h.op)) {
      OccursSooner(s.log, Reach(s.servers[h.server], late), Reach(s'.servers[h.server], late), IdOf(h.op));
    }
    forall ok | ok in s.oks ensures Held(s.log, s'.servers[ok.0], ok.1, late) {
      if ok.0 == i {
        HeldOn(s.log, s.servers[i], v, ok.1, late);
      }
    }
  }

  lemma ServerOf(s: Service, i: int, late: bool)
    requires Inv(s, late) && On(s, i)
    ensures ServerOk(s.log, s.servers[i], late) && LogOk(s.log, s.issued)
  {
  }

  // ----- commands --------------------------------------------------------------------------

  /** The table after one command. */
  lemma ReceiveTable(log: seq<Op>, store: Store, n: int, index: nat)
    requires TableOk(log, n, store.last) && n <= index <= |log| && index > 0
    ensures TableOk(log, index, Apply(store, log[index - 1]).last)
  {
    var op := log[index - 1];
    var last := Apply(store, op).last;
    forall c | c in last ensures Occurs(log, index, (c, last[c])) {
      if c == op.client && last[c] == op.request {
        assert IdOf(log[index - 1]) == (c, last[c]);
      } else {
        OccursSooner(log, n, index, (c, last[c]));
      }
    }
  }

  /** What a server's table covers once it is one command further. */
  lemma ReceiveTableOk(log: seq<Op>, v: Server, late: bool, index: nat)
    requires ServerOk(log, v, late) && Deliverable(log, v, index)
    ensures var v' := Receive(v, log[index - 1], index); TableOk(log, Reach(v', late), v'.store.last)
  {
    hide Apply, Occurs;
    var v' := Receive(v, log[index - 1], index);
    if index <= v.floor || index <= Reach(v, late) {
      TableSooner(log, Reach(v, late), Reach(v', late), v.store.last);
    }
    if index > v.floor {
      var n := Max(Reach(v, late), index);
      if Reach(v, late) <= index {
        ReceiveTable(log, v.store, Reach(v, late), index);
      } else {
        ApplyTable(log, v.store, Reach(v, late), index);
      }
    }
  }

  lemma ApplyTable(log: seq<Op>, store: Store, n: int, index: nat)
    requires TableOk(log, n, store.last) && 0 < index <= n && index <= |log|
    ensures TableOk(log, n, Apply(store, log[index - 1]).last)
  {
    var op := log[index - 1];
    var last := Apply(store, op).last;
    forall c | c in last ensures Occurs(log, n, (c, last[c])) {
      if c == op.client && last[c] == op.request {
        assert IdOf(log[index - 1]) == (c, last[c]);
      }
    }
  }

  lemma ReceiveGoesOn(log: seq<Op>, v: Server, op: Op, index: nat, late: bool)
    requires v.front <= index
    ensures GoesOn(log, v, Receive(v, op, index), late)
  {
    hide Apply, Executes;
  }

  /** A command just taken is executed, or its request was held before. */
  lemma TakenBacked(log: seq<Op>, issued: map<Id, Op>, v: Server, late: bool, index: nat)
    requires LogOk(log, issued) && ServerOk(log, v, late) && Deliverable(log, v, index) && Updates(log[index - 1])
    ensures Held(log, Receive(v, log[index - 1], index), IdOf(log[index - 1]), late)
  {
    var op := log[index - 1];
    var v' := Receive(v, op, index);
    if index <= v.floor {
      assert Backed(log, v', index - 1, late);
    } else if Duplicate(v.store, op.client, op.request) {
      DuplicateReached(log, issued, v, late, op.client, op.request);
      ReachedHeld(log, issued, v, late, op);
      ReceiveGoesOn(log, v, op, index, late);
      hide Receive, ServerOk, LogOk, Backed;
      HeldOn(log, v, v', IdOf(op), late);
    } else {
      assert Backed(log, v', index - 1, late);
    }
  }

  lemma ReceiveChannels(log: seq<Op>, v: Server, index: nat)
    requires ChannelsOk(log, v) && v.front < index <= |log|
    ensures ChannelsOk(log, Receive(v, log[index - 1], index))
  {
    hide Apply, Executes;
  }

  /** What a delivery skips was held already. */
  lemma ReceiveHeld(log: seq<Op>, issued: map<Id, Op>, v: Server, late: bool, index: nat)
    requires LogOk(log, issued) && ServerOk(log, v, late) && Deliverable(log, v, index)
    requires !late ==> index - 1 <= Max(v.front, v.loaded)
    ensures var v' := Receive(v, log[index - 1], index); UpdatesHeld(log, v', Reach(v', late), late)
  {
    var v' := Receive(v, log[index - 1], index);
    ReceiveGoesOn(log, v, log[index - 1], index, late);
    ReceiveReach(log, v, late, index);
    if Updates(log[index - 1]) {
      TakenBacked(log, issued, v, late, index);
    }
    hide Receive, LogOk, Held, Reach, TableOk, GoesOn;
    forall p | 0 <= p < Reach(v', late) && p < |log| && Updates(log[p]) ensures Held(log, v', IdOf(log[p]), late) {
      if p != index - 1 {
        HeldOn(log, v, v', IdOf(log[p]), late);
      }
    }
  }

  lemma ReceiveReach(log: seq<Op>, v: Server, late: bool, index: nat)
    requires Deliverable(log, v, index) && (!late ==> index - 1 <= Max(v.front, v.loaded))
    ensures Reach(Receive(v, log[index - 1], index), late) == Max(Reach(v, late), index)
    ensures index - 1 <= Reach(v, late)
  {
    hide Apply, Executes;
  }

  lemma ReceiveOk(log: seq<Op>, issued: map<Id, Op>, v: Server, late: bool, index: nat)
    requires LogOk(log, issued) && ServerOk(log, v, late) && Deliverable(log, v, index)
    requires !late ==> index - 1 <= Max(v.front, v.loaded)
    ensures ServerOk(log, Receive(v, log[index - 1], index), late)
  {
    ReceiveTableOk(log, v, late, index);
    ReceiveHeld(log, issued, v, late, index);
    ReceiveChannels(log, v, index);
    hide TableOk, LogOk, Apply, Executes, UpdatesHeld, ChannelsOk, Reach;
  }

  lemma DeliverInv(s: Service, i: int, index: nat, late: bool)
    requires Inv(s, late) && Enabled(s, Deliver(i, index)) && (late || Orderly(s, Deliver(i, index)))
    ensures Inv(Perform(s, Deliver(i, index)), late)
  {
    var v := s.servers[i];
    ServerOf(s, i, late);
    ReceiveOk(s.log, s.issued, v, late, index);
    ReceiveGoesOn(s.log, v, s.log[index - 1], index, late);
    var v' := Receive(v, s.log[index - 1], index);
    InvParts(s, late);
    hide Inv, Receive, ServerOk, GoesOn, TableOk, LogOk;
    ServerChanged(s, Perform(s, Deliver(i, index)), i, v', late);
  }

  /** Those parts of the invariant that a change of one server leaves alone. */
  lemma InvParts(s: Service, late: bool)
    requires Inv(s, late)
    ensures forall h | h in s.waiting :: IsIssued(s.issued, h.op)
    ensures forall snap | snap in s.snaps :: snap.index <= |s.log| && TableOk(s.log, snap.index, snap.store.last)
  {
  }

  // ----- snapshots -------------------------------------------------------------------------

  lemma LoadGoesOn(log: seq<Op>, v: Server, snap: Snap, data: map<int, string>, late: bool)
    requires snap in v.flight
    ensures GoesOn(log, v, Load(v, snap, data), late)
  {
    var v' := Load(v, snap, data);
    forall p | 0 <= p < |log| && Backed(log, v, p, late) ensures Backed(log, v', p, late) {
      if late && OnItsWay(v, p) {
        var other :| other in v.flight && p < other.index;
        assert other == snap || other in v'.flight;
      }
    }
  }

  lemma LoadOk(log: seq<Op>, v: Server, snap: Snap, data: map<int, string>, late: bool)
    requires ServerOk(log, v, late) && snap in v.flight
    ensures ServerOk(log, Load(v, snap, data), late)
  {
    var v' := Load(v, snap, data);
    LoadGoesOn(log, v, snap, data, late);
    TableSooner(log, snap.index, Reach(v', late), snap.store.last);
    hide TableOk, GoesOn, Held;
    forall p | 0 <= p < Reach(v', late) && p < |log| && Updates(log[p]) ensures Held(log, v', IdOf(log[p]), late) {
      if p < snap.index {
        CoveredHeld(log, v', p, late);
      } else {
        HeldOn(log, v, v', IdOf(log[p]), late);
      }
    }
  }

  lemma CoveredHeld(log: seq<Op>, v: Server, p: int, late: bool)
    requires 0 <= p < |log| && (p < v.loaded || (late && OnItsWay(v, p)))
    ensures Held(log, v, IdOf(log[p]), late)
  {
    assert Backed(log, v, p, late);
  }

  lemma LoadInv(s: Service, i: int, snap: Snap, data: map<int, string>, late: bool)
    requires Inv(s, late) && Enabled(s, LoadSnapshot(i, snap, data))
    ensures Inv(Perform(s, LoadSnapshot(i, snap, data)), late)
  {
    ServerOf(s, i, late);
    LoadOk(s.log, s.servers[i], snap, data, late);
    LoadGoesOn(s.log, s.servers[i], snap, data, late);
    InvParts(s, late);
    hide Inv, Load, ServerOk, GoesOn, TableOk, LogOk;
    ServerChanged(s, Perform(s, LoadSnapshot(i, snap, data)), i, Load(s.servers[i], snap, data), late);
  }

  function Installed(v: Server, snap: Snap): Server {
    v.(installed := snap.index, flight := v.flight + {snap})
  }

  lemma InstallGoesOn(log: seq<Op>, v: Server, snap: Snap, late: bool)
    requires snap.index > v.installed
    ensures GoesOn(log, v, Installed(v, snap), late)
  {
    var v' := Installed(v, snap);
    forall p | 0 <= p < |log| && Backed(log, v, p, late) ensures Backed(log, v', p, late) {
      if late && OnItsWay(v, p) {
        var other :| other in v.flight && p < other.index;
        assert other in v'.flight;
      }
    }
  }

  lemma InstallOk(log: seq<Op>, v: Server, snap: Snap, late: bool)
    requires ServerOk(log, v, late) && v.installed < snap.index <= |log| && TableOk(log, snap.index, snap.store.last)
    ensures ServerOk(log, Installed(v, snap), late)
  {
    var v' := Installed(v, snap);
    InstallGoesOn(log, v, snap, late);
    TableSooner(log, Reach(v, late), Reach(v', late), v.store.last);
    hide TableOk, GoesOn, Held;
    forall p | 0 <= p < Reach(v', late) && p < |log| && Updates(log[p]) ensures Held(log, v', IdOf(log[p]), late) {
      if p < Reach(v, late) {
        HeldOn(log, v, v', IdOf(log[p]), late);
      } else {
        assert snap in v'.flight && p < snap.index;
        CoveredHeld(log, v', p, late);
      }
    }
  }

  lemma RaftInstallInv(s: Service, i: int, snap: Snap, late: bool)
    requires Inv(s, late) && Enabled(s, RaftInstall(i, snap))
    ensures Inv(Perform(s, RaftInstall(i, snap)), late)
  {
    ServerOf(s, i, late);
    InvParts(s, late);
    InstallOk(s.log, s.servers[i], snap, late);
    InstallGoesOn(s.log, s.servers[i], snap, late);
    hide Inv, ServerOk, GoesOn, TableOk, LogOk;
    ServerChanged(s, Perform(s, RaftInstall(i, snap)), i, Installed(s.servers[i], snap), late);
  }

  lemma MakeOk(log: seq<Op>, v: Server, late: bool)
    requires ServerOk(log, v, late) && v.front > v.installed
    ensures var v' := v.(installed := v.front);
      ServerOk(log, v', late) && GoesOn(log, v, v', late) && TableOk(log, v.front, v.store.last)
  {
    var v' := v.(installed := v.front);
    assert Reach(v', late) == Reach(v, late) == v.front;
    assert GoesOn(log, v, v', late) by {
      assert forall p :: OnItsWay(v, p) <==> OnItsWay(v', p);
    }
    hide TableOk, GoesOn, Held;
    forall p | 0 <= p < Reach(v', late) && p < |log| && Updates(log[p]) ensures Held(log, v', IdOf(log[p]), late) {
      HeldOn(log, v, v', IdOf(log[p]), late);
    }
  }

  lemma SnapshotInv(s: Service, i: int, late: bool)
    requires Inv(s, late) && Enabled(s, MakeSnapshot(i))
    ensures Inv(Perform(s, MakeSnapshot(i)), late)
  {
    var v := s.servers[i];
    ServerOf(s, i, late);
    InvParts(s, late);
    MakeOk(s.log, v, late);
    assert v.front <= |s.log|;
    hide Inv, ServerOk, GoesOn, TableOk, LogOk;
    ServerChanged(s, Perform(s, MakeSnapshot(i)), i, v.(installed := v.front), late);
  }

  // ----- handlers --------------------------------------------------------------------------

  /** Another store or other channels: nothing the history of the server knows. */
  lemma OnlyStore(log: seq<Op>, v: Server, v': Server, late: bool)
    requires ServerOk(log, v, late) && v' == v.(store := v'.store, channels := v'.channels)
    requires TableOk(log, Reach(v, late), v'.store.last) && ChannelsOk(log, v')
    ensures ServerOk(log, v', late) && GoesOn(log, v, v', late)
  {
    assert Reach(v', late) == Reach(v, late);
    StaysOn(log, v, v', late);
    hide TableOk, ChannelsOk, GoesOn, Held, Reach;
    forall p | 0 <= p < Reach(v', late) && p < |log| && Updates(log[p]) ensures Held(log, v', IdOf(log[p]), late) {
      HeldOn(log, v, v', IdOf(log[p]), late);
    }
  }

  lemma ServerParts(log: seq<Op>, v: Server, late: bool)
    requires ServerOk(log, v, late)
    ensures TableOk(log, Reach(v, late), v.store.last) && ChannelsOk(log, v) && v.front <= |log|
  {
  }

  /** A call returns, and an update may get its OK. */
  lemma ReturnsInv(s: Service, id: Id, goesBack: bool, server: int, isOk: bool, late: bool)
    requires Inv(s, late) && (goesBack ==> Occurs(s.log, |s.log|, id))
    requires isOk ==> On(s, server) && Held(s.log, s.servers[server], id, late)
    ensures Inv(s.(returned := if goesBack then s.returned + {id} else s.returned,
                   oks := if isOk then s.oks + {(server, id)} else s.oks), late)
  {
    hide LogOk, ServerOk, TableOk, Occurs, Held, Reach, IsIssued;
  }

  lemma LeaveInv(s: Service, h: Handler, answers: bool, delivered: bool, late: bool)
    requires Inv(s, late) && h in s.waiting && On(s, h.server)
    requires answers ==> Occurs(s.log, Reach(s.servers[h.server], late), IdOf(h.op))
    ensures Inv(Leave(s, h, answers, delivered), late)
  {
    hide Inv, ServerOk, LogOk, TableOk, Occurs, Held, Reach, GoesOn, ChannelsOk, IssuedOk, IsIssued;
    var i, v := h.server, s.servers[h.server];
    var channels := v.channels - {h.index};
    ServerOf(s, i, late);
    ServerParts(s.log, v, late);
    InvIssued(s, late);
    FewerChannels(s.log, v, channels);
    ChannelsInv(s, i, channels, s.waiting - {h}, late);
    var s1 := s.(servers := s.servers[i := v.(channels := channels)], waiting := s.waiting - {h});
    if answers {
      OccursWhole(s.log, v, late, IdOf(h.op));
      if Updates(h.op) {
        ReachedHeld(s.log, s.issued, v, late, h.op);
        StaysOn(s.log, v, v.(channels := channels), late);
        HeldOn(s.log, v, v.(channels := channels), IdOf(h.op), late);
      }
    }
    ReturnsInv(s1, IdOf(h.op), answers && delivered, i, answers && Updates(h.op), late);
  }

  lemma FewerChannels(log: seq<Op>, v: Server, channels: map<int, seq<Op>>)
    requires ChannelsOk(log, v) && forall i | i in channels :: i in v.channels && v.channels[i] == channels[i]
    ensures ChannelsOk(log, v.(channels := channels))
  {
  }

  lemma OccursWhole(log: seq<Op>, v: Server, late: bool, id: Id)
    requires Occurs(log, Reach(v, late), id)
    ensures Occurs(log, |log|, id)
  {
    var p :| 0 <= p < Reach(v, late) && p < |log| && IdOf(log[p]) == id;
  }

  lemma SettleInv(s: Service, h: Handler, answers: bool, delivered: bool, late: bool)
    requires Inv(s, late) && h in s.waiting && On(s, h.server)
    requires answers ==> Occurs(s.log, Reach(s.servers[h.server], late), IdOf(h.op))
    ensures Inv(Settle(s, h, answers, delivered), late)
  {
    if answers && h.op.kind == Get {
      hide ServerOk, LogOk, IssuedOk, TableOk, Occurs, Held, Reach, IsIssued;
    } else {
      LeaveInv(s, h, answers, delivered, late);
    }
  }

  /** Channels changed, and who waits. */
  lemma ChannelsInv(s: Service, i: int, channels: map<int, seq<Op>>, waiting: set<Handler>, late: bool)
    requires Inv(s, late) && On(s, i) && ChannelsOk(s.log, s.servers[i].(channels := channels))
    requires forall h | h in waiting :: IsIssued(s.issued, h.op)
    ensures Inv(s.(servers := s.servers[i := s.servers[i].(channels := channels)], waiting := waiting), late)
  {
    var v := s.servers[i];
    var v' := v.(channels := channels);
    ServerOf(s, i, late);
    ServerParts(s.log, v, late);
    OnlyStore(s.log, v, v', late);
    InvParts(s, late);
    hide Inv, ServerOk, GoesOn, TableOk, LogOk, ChannelsOk;
    ServerChanged(s, s.(servers := s.servers[i := v'], waiting := waiting), i, v', late);
  }

  /** An operation popped from a channel is the command of its index. */
  lemma PoppedReached(log: seq<Op>, v: Server, index: int, late: bool)
    requires ChannelsOk(log, v) && index in v.channels && v.channels[index] != []
    ensures Occurs(log, Reach(v, late), IdOf(v.channels[index][0]))
    ensures ChannelsOk(log, v.(channels := v.channels[index := v.channels[index][1..]]))
  {
    assert v.channels[index][0] in v.channels[index];
    assert IdOf(log[index - 1]) == IdOf(v.channels[index][0]);
    assert forall op | op in v.channels[index][1..] :: op in v.channels[index];
  }

  lemma PoppedInv(s: Service, h: Handler, delivered: bool, late: bool)
    requires Inv(s, late) && Enabled(s, Popped(h, delivered))
    ensures Inv(Perform(s, Popped(h, delivered)), late)
  {
    var v := s.servers[h.server];
    var channels := v.channels[h.index := v.channels[h.index][1..]];
    ServerOf(s, h.server, late);
    ServerParts(s.log, v, late);
    PoppedReached(s.log, v, h.index, late);
    InvParts(s, late);
    hide Inv, Occurs, Settle, ChannelsOk, ServerOk, TableOk, LogOk;
    ChannelsInv(s, h.server, channels, s.waiting, late);
    var s1 := s.(servers := s.servers[h.server := v.(channels := channels)]);
    assert s1 == s.(servers := s.servers[h.server := v.(channels := channels)], waiting := s.waiting);
    SettleInv(s1, h, IdOf(v.channels[h.index][0]) == IdOf(h.op), delivered, late);
  }

  lemma TimedOutInv(s: Service, h: Handler, isLeader: bool, delivered: bool, late: bool)
    requires Inv(s, late) && Enabled(s, TimedOut(h, isLeader, delivered))
    ensures Inv(Perform(s, TimedOut(h, isLeader, delivered)), late)
  {
    var v := s.servers[h.server];
    var known := Duplicate(v.store, h.op.client, h.op.request);
    ServerOf(s, h.server, late);
    if known {
      RequestPositive(s, h, late);
      DuplicateReached(s.log, s.issued, v, late, h.op.client, h.op.request);
    }
    hide Inv, Occurs, Settle, Duplicate, ServerOk, LogOk;
    SettleInv(s, h, known && (h.op.kind == Get ==> isLeader), delivered, late);
  }

  lemma RequestPositive(s: Service, h: Handler, late: bool)
    requires Inv(s, late) && h in s.waiting
    ensures h.op.request >= 1
  {
    hide ServerOk, LogOk, TableOk, Occurs, Held, Reach;
    assert IsIssued(s.issued, h.op);
  }

  lemma WaitInv(s: Service, h: Handler, late: bool)
    requires Inv(s, late) && Enabled(s, Wait(h))
    ensures Inv(Perform(s, Wait(h)), late)
  {
    var v := s.servers[h.server];
    var channels := if h.index in v.channels then v.channels else v.channels[h.index := []];
    ServerOf(s, h.server, late);
    ServerParts(s.log, v, late);
    InvParts(s, late);
    assert ChannelsOk(s.log, v.(channels := channels));
    hide Inv, Occurs, ChannelsOk, ServerOk, TableOk, LogOk;
    ChannelsInv(s, h.server, channels, s.waiting + {h}, late);
  }

  lemma ReadTable(log: seq<Op>, n: int, store: Store, op: Op)
    requires TableOk(log, n, store.last) && Occurs(log, n, IdOf(op))
    ensures TableOk(log, n, ReadBy(store, op).last)
  {
    hide Occurs;
  }

  lemma ReaderReached(s: Service, h: Handler, late: bool)
    requires Inv(s, late) && h in s.reading
    ensures On(s, h.server) && Occurs(s.log, Reach(s.servers[h.server], late), IdOf(h.op))
  {
  }

  lemma DoneReading(s: Service, h: Handler, late: bool)
    requires Inv(s, late)
    ensures Inv(s.(reading := s.reading - {h}), late)
  {
    hide LogOk, IssuedOk, ServerOk, TableOk, Occurs, Held, Reach, IsIssued;
  }

  lemma ReadInv(s: Service, h: Handler, delivered: bool, late: bool)
    requires Inv(s, late) && Enabled(s, Read(h, delivered))
    ensures Inv(Perform(s, Read(h, delivered)), late)
  {
    hide Inv, ServerOk, LogOk, TableOk, Occurs, Held, Reach, GoesOn, ChannelsOk, IssuedOk, IsIssued, ReadBy;
    var i, v := h.server, s.servers[h.server];
    var v' := v.(store := ReadBy(v.store, h.op), channels := v.channels - {h.index});
    ServerOf(s, i, late);
    ServerParts(s.log, v, late);
    ReaderReached(s, h, late);
    ReadTable(s.log, Reach(v, late), v.store, h.op);
    FewerChannels(s.log, v, v'.channels);
    SameChannels(s.log, v.(channels := v'.channels), v');
    OnlyStore(s.log, v, v', late);
    InvParts(s, late);
    ServerChanged(s, s.(servers := s.servers[i := v']), i, v', late);
    DoneReading(s.(servers := s.servers[i := v']), h, late);
    OccursWhole(s.log, v, late, IdOf(h.op));
    ReturnsInv(s.(servers := s.servers[i := v'], reading := s.reading - {h}), IdOf(h.op), delivered, i, false, late);
  }

  lemma SameChannels(log: seq<Op>, v: Server, v': Server)
    requires ChannelsOk(log, v) && v'.channels == v.channels && v'.front == v.front
    ensures ChannelsOk(log, v')
  {
  }

  /** Every step keeps the invariant; without late snapshots every orderly one does. */
  lemma StepInv(s: Service, step: Step, late: bool)
    requires Inv(s, late) && Enabled(s, step) && (late || Orderly(s, step))
    ensures Inv(Perform(s, step), late)
  {
    hide Inv, Perform, Enabled, Orderly;
    match step
    case Issue(op) => IssueInv(s, op, late);
    case Commit(op) => CommitInv(s, op, late);
    case Wait(h) => WaitInv(s, h, late);
    case Deliver(i, index) => DeliverInv(s, i, index, late);
    case Popped(h, delivered) => PoppedInv(s, h, delivered, late);
    case TimedOut(h, isLeader, delivered) => TimedOutInv(s, h, isLeader, delivered, late);
    case Read(h, delivered) => ReadInv(s, h, delivered, late);
    case MakeSnapshot(i) => SnapshotInv(s, i, late);
    case RaftInstall(i, snap) => RaftInstallInv(s, i, snap, late);
    case LoadSnapshot(i, snap, data) => LoadInv(s, i, snap, data, late);
  }

  // ----- runs ------------------------------------------------------------------------------

  ghost predicate IsRun(n: nat, states: seq<Service>, steps: seq<Step>) {
    && |states| == |steps| + 1
    && states[0] == Init(n)
    && forall k | 0 <= k < |steps| :: Enabled(states[k], steps[k]) && states[k + 1] == Perform(states[k], steps[k])
  }

  /** A run in which no command overtakes a snapshot. */
  ghost predicate IsOrderlyRun(n: nat, states: seq<Service>, steps: seq<Step>) {
    IsRun(n, states, steps) && forall k | 0 <= k < |steps| :: Orderly(states[k], steps[k])
  }

  lemma InitInv(n: nat, late: bool)
    ensures Inv(Init(n), late)
  {
  }

  lemma {:induction false} RunInv(n: nat, states: seq<Service>, steps: seq<Step>, k: int, late: bool)
    requires IsRun(n, states, steps) && 0 <= k < |states| && (late || IsOrderlyRun(n, states, steps))
    ensures Inv(states[k], late)
    decreases k
  {
    hide Inv, Perform, Enabled, Init, Orderly;
    if k == 0 {
      InitInv(n, late);
    } else {
      RunInv(n, states, steps, k - 1, late);
      StepInv(states[k - 1], steps[k - 1], late);
    }
  }

  lemma OkHeld(s: Service, ok: (int, Id), late: bool)
    requires Inv(s, late) && ok in s.oks
    ensures On(s, ok.0) && Held(s.log, s.servers[ok.0], ok.1, late)
  {
  }

  /**
    OK means applied: in every interleaving, an OK reply to a Put or Append, through the channel or
    after a timeout, comes from a server that executed this very request, or loaded a snapshot that
    covers it, or whose Raft has installed one that is still on its way to the store.
  */
  lemma OkMeansApplied(n: nat, states: seq<Service>, steps: seq<Step>, k: int, ok: (int, Id))
    requires IsRun(n, states, steps) && 0 <= k < |states| && ok in states[k].oks
    ensures On(states[k], ok.0)
    ensures var v, log := states[k].servers[ok.0], states[k].log;
      || ok.1 in v.executed
      || (exists p | 0 <= p < |log| :: IdOf(log[p]) == ok.1 && (p < v.loaded || OnItsWay(v, p)))
  {
    hide Inv, IsRun;
    RunInv(n, states, steps, k, true);
    OkHeld(states[k], ok, true);
  }

  /** In an orderly run it was executed by the server that answered, or a snapshot loaded there covers it. */
  lemma OrderlyOkMeansApplied(n: nat, states: seq<Service>, steps: seq<Step>, k: int, ok: (int, Id))
    requires IsOrderlyRun(n, states, steps) && 0 <= k < |states| && ok in states[k].oks
    ensures On(states[k], ok.0)
    ensures var v, log := states[k].servers[ok.0], states[k].log;
      || ok.1 in v.executed
      || (exists p | 0 <= p < |log| :: IdOf(log[p]) == ok.1 && p < v.loaded)
  {
    hide Inv;
    RunInv(n, states, steps, k, false);
    OkHeld(states[k], ok, false);
  }

  /** A request whose call returned is among the committed commands, and before any later request of its client. */
  lemma ReturnedIsCommitted(n: nat, states: seq<Service>, steps: seq<Step>, k: int, id: Id)
    requires IsRun(n, states, steps) && 0 <= k < |states| && id in states[k].returned
    ensures Occurs(states[k].log, |states[k].log|, id)
    ensures forall p | 0 <= p < |states[k].log| && states[k].log[p].client == id.0 && states[k].log[p].request > id.1 ::
      Occurs(states[k].log, p, id)
  {
    hide IsRun, ServerOk, Held, TableOk;
    RunInv(n, states, steps, k, true);
    var s := states[k];
    var q :| 0 <= q < |s.log| && IdOf(s.log[q]) == id;
    forall p | 0 <= p < |s.log| && s.log[p].client == id.0 && s.log[p].request > id.1 ensures Occurs(s.log, p, id) {
      Earlier(s.log, s.issued, p, id.0, s.log[p].request - 1, id.1);
    }
  }

  // ----- the store -------------------------------------------------------------------------

  /** Neither installs a snapshot on server i nor lets a Get handler of it read. */
  predicate PlainStep(step: Step, i: int) {
    && !(step.RaftInstall? && step.server == i)
    && !(step.Read? && step.handler.server == i)
  }

  /** A server that has seen no snapshot and no Get handler holds the replay of what it took. */
  ghost predicate Replayed(s: Service, i: int) {
    && On(s, i)
    && var v := s.servers[i];
       && v.front <= |s.log| && v.installed <= v.front && v.flight == {} && v.floor == 0
       && v.store == Replay(EMPTY, s.log[..v.front])
  }

  lemma PlainReplays(s: Service, step: Step, i: int)
    requires Enabled(s, step) && PlainStep(step, i) && Replayed(s, i)
    ensures Replayed(Perform(s, step), i)
  {
    hide Replay, Apply, Executes;
    var v := s.servers[i];
    assert Perform(s, step).log[..v.front] == s.log[..v.front];
    if step.Deliver? && step.server == i {
      assert step.index == v.front + 1;
      ReplayOne(EMPTY, s.log[..v.front], s.log[v.front]);
      assert s.log[..v.front] + [s.log[v.front]] == s.log[..v.front + 1];
    }
  }

  lemma {:induction false} StoreIsReplay(n: nat, states: seq<Service>, steps: seq<Step>, k: int, i: int)
    requires IsRun(n, states, steps) && 0 <= k < |states| && 0 <= i < n
    requires forall j | 0 <= j < k :: PlainStep(steps[j], i)
    ensures Replayed(states[k], i)
    decreases k
  {
    if k == 0 {
      assert states[0].log[..0] == [];
    } else {
      hide Perform, Replay, PlainStep, Enabled, Replayed;
      StoreIsReplay(n, states, steps, k - 1, i);
      PlainReplays(states[k - 1], steps[k - 1], i);
    }
  }

  // ----- retries in a run ------------------------------------------------------------------

  /** Every id names one request, so a client's repeats settle nothing new. */
  lemma LogIsSettled(log: seq<Op>, issued: map<Id, Op>)
    requires LogOk(log, issued)
    ensures IdsSettled(log)
  {
    forall i | 0 <= i < |log| && Repeats(log, i) ensures Idle(log, i) {
      var j :| 0 <= j < i && IdOf(log[j]) == IdOf(log[i]);
      assert log[j] == issued[IdOf(log[j])] == issued[IdOf(log[i])] == log[i];
    }
  }

  /** In every run the committed commands, and any first part of them, do what they do without the retries. */
  lemma RetriesIdempotentInRuns(n: nat, states: seq<Service>, steps: seq<Step>, k: int, store: Store, m: nat)
    requires IsRun(n, states, steps) && 0 <= k < |states| && m <= |states[k].log|
    ensures Replay(store, Once(states[k].log[..m])) == Replay(store, states[k].log[..m])
  {
    hide IsRun, IdsSettled, Once, Replay;
    RunInv(n, states, steps, k, true);
    InvIssued(states[k], true);
    LogIsSettled(states[k].log, states[k].issued);
    IdsSettledUpTo(states[k].log, m);
    RetriesAreIdempotent(store, states[k].log[..m]);
  }

  // ----- what a Get handler does to the table ----------------------------------------------

  /** A Get handler marks the table with its own request, whatever stood there: it lowers an entry just if that was higher. */
  lemma GetLowersTable(store: Store, op: Op)
    ensures TableRises(store, ReadBy(store, op)) <==> !(op.client in store.last && op.request < store.last[op.client])
  {
    if op.client in store.last && op.request < store.last[op.client] {
      assert ReadBy(store, op).last[op.client] < store.last[op.client];
    }
  }

  /** So a late Get handler between two copies of an update makes the second copy execute again. */
  lemma LateGetRepeatsUpdate(store: Store, update: Op, late: Op)
    requires Updates(update) && late.client == update.client
    ensures Executes(ReadBy(Apply(store, update), late), update) <==> late.request < update.request
  {
  }
}
