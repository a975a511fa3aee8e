/**
  Exactly when OK means executed or loaded.  A server is truthful if every update its table calls a
  duplicate is one it has executed, or one that a snapshot it has loaded covers; that is what its
  answers after a timeout rest on.  A step misleads if it raises the table over an update the server
  lacks: a delivery that executes, or a Get handler that reads.  A run keeps every server truthful if
  and only if none of its steps misleads, and then every OK is backed.
*/
module KvTruth {
  import opened KvStore
  import opened KvService

  /** What the table calls a duplicate update, the server has executed or loaded. */
  ghost predicate Truthful(log: seq<Op>, v: Server) {
    forall p | 0 <= p < |log| && Updates(log[p]) && Duplicate(v.store, log[p].client, log[p].request) ::
      Held(log, v, IdOf(log[p]), false)
  }

  /** The update at p is of this client and no later than this request, and the server has neither executed nor loaded it. */
  ghost predicate LackedAt(log: seq<Op>, v: Server, client: string, request: int, p: int)
    requires 0 <= p < |log|
  {
    Updates(log[p]) && log[p].client == client && log[p].request <= request && !Held(log, v, IdOf(log[p]), false)
  }

  ghost predicate Lacks(log: seq<Op>, v: Server, client: string, request: int) {
    exists p | 0 <= p < |log| :: LackedAt(log, v, client, request, p)
  }

  /** The same of the positions from lo to hi. */
  ghost predicate LacksBetween(log: seq<Op>, v: Server, client: string, request: int, lo: int, hi: int) {
    exists p | lo <= p < hi && 0 <= p < |log| :: LackedAt(log, v, client, request, p)
  }

  /** Taking the command raises the table over an earlier update of its client that the server lacks. */
  ghost predicate SkipsOwn(log: seq<Op>, v: Server, index: nat)
    requires 1 <= index <= |log|
  {
    index > v.floor && Executes(v.store, log[index - 1]) && Lacks(log, v, log[index - 1].client, log[index - 1].request - 1)
  }

  /** The step makes a server untruthful. */
  ghost predicate Misleads(s: Service, step: Step)
    requires Enabled(s, step)
  {
    match step
    case Deliver(i, index) => SkipsOwn(s.log, s.servers[i], index)
    case Read(h, _) => Lacks(s.log, s.servers[h.server], h.op.client, h.op.request)
    case _ => false
  }

  // ----- one server ------------------------------------------------------------------------

  lemma HeldSame(log: seq<Op>, v: Server, v': Server, id: Id)
    requires v'.executed == v.executed && v'.loaded == v.loaded
    ensures Held(log, v, id, false) <==> Held(log, v', id, false)
  {
    if Held(log, v, id, false) {
      var p :| 0 <= p < |log| && IdOf(log[p]) == id && Backed(log, v, p, false);
      assert Backed(log, v', p, false);
    }
    if Held(log, v', id, false) {
      var p :| 0 <= p < |log| && IdOf(log[p]) == id && Backed(log, v', p, false);
      assert Backed(log, v, p, false);
    }
  }

  lemma TruthSame(log: seq<Op>, v: Server, v': Server)
    requires v'.store == v.store && v'.executed == v.executed && v'.loaded == v.loaded
    ensures Truthful(log, v) <==> Truthful(log, v')
  {
    forall p | 0 <= p < |log| ensures Held(log, v, IdOf(log[p]), false) <==> Held(log, v', IdOf(log[p]), false) {
      HeldSame(log, v, v', IdOf(log[p]));
    }
    hide Held;
  }

  /** Executing one more request: it is held, and no other that was not. */
  lemma HeldMore(log: seq<Op>, v: Server, v': Server, done: Id, p: int)
    requires v'.executed == v.executed + [done] && v'.loaded == v.loaded && 0 <= p < |log|
    ensures Held(log, v', IdOf(log[p]), false) <==> Held(log, v, IdOf(log[p]), false) || IdOf(log[p]) == done
  {
    var id := IdOf(log[p]);
    if Held(log, v', id, false) && id != done {
      var q :| 0 <= q < |log| && IdOf(log[q]) == id && Backed(log, v', q, false);
      assert Backed(log, v, q, false);
    }
    if Held(log, v, id, false) {
      var q :| 0 <= q < |log| && IdOf(log[q]) == id && Backed(log, v, q, false);
      assert Backed(log, v', q, false);
    }
    if id == done {
      assert Backed(log, v', p, false);
    }
  }

  /** Executing a command keeps a server truthful exactly when it lacks no earlier update of the client. */
  lemma ExecutedTruth(log: seq<Op>, v: Server, index: nat)
    requires Truthful(log, v) && 1 <= index <= |log| && index > v.floor && Executes(v.store, log[index - 1])
    ensures Truthful(log, Receive(v, log[index - 1], index)) <==>
      !Lacks(log, v, log[index - 1].client, log[index - 1].request - 1)
  {
    var op, earlier := log[index - 1], log[index - 1].request - 1;
    var v' := Receive(v, op, index);
    assert v'.store.last == v.store.last[op.client := op.request];
    forall p | 0 <= p < |log|
      ensures Held(log, v', IdOf(log[p]), false) <==> Held(log, v, IdOf(log[p]), false) || IdOf(log[p]) == IdOf(op)
    {
      HeldMore(log, v, v', IdOf(op), p);
    }
    hide Held, Receive;
    if Truthful(log, v') {
      forall p | 0 <= p < |log| && Updates(log[p]) && log[p].client == op.client && log[p].request <= earlier
        ensures Held(log, v, IdOf(log[p]), false)
      {
        assert Duplicate(v'.store, log[p].client, log[p].request);
      }
    }
    if !Lacks(log, v, op.client, earlier) {
      forall p | 0 <= p < |log| && Updates(log[p]) && Duplicate(v'.store, log[p].client, log[p].request)
        ensures Held(log, v', IdOf(log[p]), false)
      {
        assert !LackedAt(log, v, op.client, earlier, p);
        if log[p].client != op.client {
          assert Duplicate(v.store, log[p].client, log[p].request);
        }
      }
    }
  }

  /** The exact line for one command. */
  lemma ReceivedTruth(log: seq<Op>, v: Server, index: nat)
    requires Truthful(log, v) && 1 <= index <= |log|
    ensures Truthful(log, Receive(v, log[index - 1], index)) <==> !SkipsOwn(log, v, index)
  {
    if index > v.floor && Executes(v.store, log[index - 1]) {
      ExecutedTruth(log, v, index);
    } else {
      TruthSame(log, v, Receive(v, log[index - 1], index));
    }
  }

  /** The exact line for a Get handler that reads. */
  lemma ReadTruth(log: seq<Op>, v: Server, v': Server, op: Op)
    requires Truthful(log, v) && v' == v.(store := ReadBy(v.store, op), channels := v'.channels)
    ensures Truthful(log, v') <==> !Lacks(log, v, op.client, op.request)
  {
    assert v'.store.last == v.store.last[op.client := op.request];
    forall p | 0 <= p < |log| ensures Held(log, v, IdOf(log[p]), false) <==> Held(log, v', IdOf(log[p]), false) {
      HeldSame(log, v, v', IdOf(log[p]));
    }
    hide Held, ReadBy;
    if Truthful(log, v') {
      forall p | 0 <= p < |log| && Updates(log[p]) && log[p].client == op.client && log[p].request <= op.request
        ensures Held(log, v, IdOf(log[p]), false)
      {
        assert Duplicate(v'.store, log[p].client, log[p].request);
      }
    }
    if !Lacks(log, v, op.client, op.request) {
      forall p | 0 <= p < |log| && Updates(log[p]) && Duplicate(v'.store, log[p].client, log[p].request)
        ensures Held(log, v', IdOf(log[p]), false)
      {
        assert !LackedAt(log, v, op.client, op.request, p);
        if log[p].client != op.client {
          assert Duplicate(v.store, log[p].client, log[p].request);
        }
      }
    }
  }

  /** A loaded snapshot covers all its table knows. */
  lemma LoadedTruth(log: seq<Op>, issued: map<Id, Op>, v: Server, snap: Snap, data: map<int, string>)
    requires LogOk(log, issued) && TableOk(log, snap.index, snap.store.last)
    ensures Truthful(log, Load(v, snap, data))
  {
    var v' := Load(v, snap, data);
    forall p | 0 <= p < |log| && Updates(log[p]) && Duplicate(v'.store, log[p].client, log[p].request)
      ensures Held(log, v', IdOf(log[p]), false)
    {
      var c, r := log[p].client, log[p].request;
      Earlier(log, issued, snap.index, c, v'.store.last[c], r);
      var q :| 0 <= q < snap.index && q < |log| && IdOf(log[q]) == (c, r);
      CoveredHeld(log, v', q, false);
    }
  }

  /** A command more in the log: a duplicate is of a request that was there before. */
  lemma CommittedTruth(s: Service, op: Op, i: int)
    requires Inv(s, true) && Enabled(s, Commit(op)) && On(s, i) && Truthful(s.log, s.servers[i])
    ensures Truthful(s.log + [op], s.servers[i])
  {
    hide Inv, LogOk, ServerOk, Held, Reach;
    var v, log := s.servers[i], s.log;
    ServerOf(s, i, true);
    InvIssued(s, true);
    IssuedPositive(s, op);
    forall p | 0 <= p < |log + [op]| && Updates((log + [op])[p]) && Duplicate(v.store, (log + [op])[p].client, (log + [op])[p].request)
      ensures Held(log + [op], v, IdOf((log + [op])[p]), false)
    {
      if p < |log| {
        HeldLonger(log, op, v, IdOf(log[p]), false);
      } else {
        DuplicateReached(log, s.issued, v, true, op.client, op.request);
        var q :| 0 <= q < Reach(v, true) && q < |log| && IdOf(log[q]) == IdOf(op);
        IssuedAt(log, s.issued, q);
        HeldLonger(log, op, v, IdOf(op), false);
      }
    }
  }

  lemma IssuedAt(log: seq<Op>, issued: map<Id, Op>, q: int)
    requires LogOk(log, issued) && 0 <= q < |log|
    ensures IsIssued(issued, log[q]) && log[q].request >= 1
  {
  }

  lemma IssuedPositive(s: Service, op: Op)
    requires Inv(s, true) && IsIssued(s.issued, op)
    ensures op.request >= 1
  {
    hide ServerOk, LogOk, TableOk, Occurs, Held, Reach;
  }

  // ----- steps -----------------------------------------------------------------------------

  ghost predicate AllTruthful(s: Service) {
    forall i | On(s, i) :: Truthful(s.log, s.servers[i])
  }

  /** Steps that take no command, read nothing, load nothing and commit nothing. */
  lemma OtherTruth(s: Service, step: Step)
    requires Enabled(s, step) && AllTruthful(s)
    requires !step.Deliver? && !step.Read? && !step.LoadSnapshot? && !step.Commit?
    ensures AllTruthful(Perform(s, step))
  {
    var s' := Perform(s, step);
    forall i | On(s', i) ensures Truthful(s'.log, s'.servers[i]) {
      assert On(s, i) && Truthful(s.log, s.servers[i]);
      TruthSame(s.log, s.servers[i], s'.servers[i]);
    }
    hide Truthful;
  }

  /** One server changed: all are truthful exactly when it is. */
  lemma OneChanged(s: Service, s': Service, i: int)
    requires AllTruthful(s) && On(s, i) && |s'.servers| == |s.servers| && s'.log == s.log
    requires s'.servers == s.servers[i := s'.servers[i]]
    ensures AllTruthful(s') <==> Truthful(s'.log, s'.servers[i])
  {
    hide Truthful;
    assert On(s', i);
    if Truthful(s'.log, s'.servers[i]) {
      forall j | On(s', j) ensures Truthful(s'.log, s'.servers[j]) {
        assert On(s, j);
      }
    }
  }

  /** Exactly the steps that mislead make a server untruthful. */
  lemma StepTruth(s: Service, step: Step)
    requires Inv(s, true) && Enabled(s, step) && AllTruthful(s)
    ensures AllTruthful(Perform(s, step)) <==> !Misleads(s, step)
  {
    hide Inv, Truthful, Lacks, Receive, ReadBy, Load, SkipsOwn, Held;
    var s' := Perform(s, step);
    match step
    case Deliver(i, index) =>
      assert On(s, i);
      ReceivedTruth(s.log, s.servers[i], index);
      OneChanged(s, s', i);
    case Read(h, _) =>
      assert On(s, h.server);
      ReadTruth(s.log, s.servers[h.server], s'.servers[h.server], h.op);
      OneChanged(s, s', h.server);
    case LoadSnapshot(i, snap, data) =>
      ServerOf(s, i, true);
      FlightOk(s.log, s.servers[i], snap);
      LoadedTruth(s.log, s.issued, s.servers[i], snap, data);
      OneChanged(s, s', i);
    case Commit(op) =>
      forall i | On(s', i) ensures Truthful(s'.log, s'.servers[i]) {
        assert On(s, i);
        CommittedTruth(s, op, i);
      }
    case _ => OtherTruth(s, step);
  }

  lemma FlightOk(log: seq<Op>, v: Server, snap: Snap)
    requires ServerOk(log, v, true) && snap in v.flight
    ensures TableOk(log, snap.index, snap.store.last)
  {
  }

  // ----- what the answers rest on ----------------------------------------------------------

  /** A server is truthful exactly when every OK it could give after a timeout is backed. */
  lemma TimeoutsBackedIffTruthful(s: Service, i: int)
    requires Inv(s, true) && On(s, i)
    ensures Truthful(s.log, s.servers[i]) <==>
      forall op | IsIssued(s.issued, op) && Updates(op) && Duplicate(s.servers[i].store, op.client, op.request) ::
        Held(s.log, s.servers[i], IdOf(op), false)
  {
    hide Inv, LogOk, ServerOk, Held, Reach;
    var v, log := s.servers[i], s.log;
    ServerOf(s, i, true);
    if Truthful(log, v) {
      forall op | IsIssued(s.issued, op) && Updates(op) && Duplicate(v.store, op.client, op.request) ensures Held(log, v, IdOf(op), false) {
        IssuedPositive(s, op);
        DuplicateReached(log, s.issued, v, true, op.client, op.request);
        var q :| 0 <= q < Reach(v, true) && q < |log| && IdOf(log[q]) == IdOf(op);
        IssuedAt(log, s.issued, q);
      }
    } else {
      var p :| 0 <= p < |log| && Updates(log[p]) && Duplicate(v.store, log[p].client, log[p].request) && !Held(log, v, IdOf(log[p]), false);
      IssuedAt(log, s.issued, p);
    }
  }

  /** And a server that is not truthful gives such an OK two steps later: a handler waits, and times out. */
  lemma UntruthfulAnswers(s: Service, i: int) returns (h: Handler, s': Service)
    requires Inv(s, true) && On(s, i) && !Truthful(s.log, s.servers[i])
    ensures Enabled(s, Wait(h)) && Enabled(Perform(s, Wait(h)), TimedOut(h, false, true))
    ensures s' == Perform(Perform(s, Wait(h)), TimedOut(h, false, true)) && On(s', i)
    ensures (i, IdOf(h.op)) in s'.oks && !Held(s'.log, s'.servers[i], IdOf(h.op), false)
  {
    hide Inv, LogOk, Held;
    var v, log := s.servers[i], s.log;
    InvIssued(s, true);
    var p :| 0 <= p < |log| && Updates(log[p]) && Duplicate(v.store, log[p].client, log[p].request) && !Held(log, v, IdOf(log[p]), false);
    IssuedAt(log, s.issued, p);
    h := Handler(i, log[p], p + 1);
    s' := Perform(Perform(s, Wait(h)), TimedOut(h, false, true));
    HeldSame(log, v, s'.servers[i], IdOf(log[p]));
  }

  /** What waits in the channels is held too. */
  ghost predicate ChannelsHeld(log: seq<Op>, v: Server) {
    forall i, op | i in v.channels && op in v.channels[i] && Updates(op) :: Held(log, v, IdOf(op), false)
  }

  ghost predicate AllChannelsHeld(s: Service) {
    forall i | On(s, i) :: ChannelsHeld(s.log, s.servers[i])
  }

  /** Every OK so far is backed by an execution or a loaded snapshot. */
  ghost predicate OksBacked(s: Service) {
    forall ok | ok in s.oks :: On(s, ok.0) && Held(s.log, s.servers[ok.0], ok.1, false)
  }

  ghost predicate Candid(s: Service) {
    Inv(s, true) && AllTruthful(s) && AllChannelsHeld(s) && OksBacked(s)
  }

  /** Nothing held is lost by any step. */
  lemma StepHeld(s: Service, step: Step, i: int, id: Id)
    requires Enabled(s, step) && On(s, i) && Held(s.log, s.servers[i], id, false)
    ensures On(Perform(s, step), i) && Held(Perform(s, step).log, Perform(s, step).servers[i], id, false)
  {
    var p :| 0 <= p < |s.log| && IdOf(s.log[p]) == id && Backed(s.log, s.servers[i], p, false);
    var s' := Perform(s, step);
    assert s'.log[p] == s.log[p] && Backed(s'.log, s'.servers[i], p, false) by {
      hide Apply, Executes, Duplicate, ReadBy;
    }
  }

  /** A command just pushed to a channel is held. */
  lemma PushedHeld(log: seq<Op>, v: Server, index: nat)
    requires 1 <= index <= |log| && index > v.floor && Updates(log[index - 1]) && Truthful(log, Receive(v, log[index - 1], index))
    ensures Held(log, Receive(v, log[index - 1], index), IdOf(log[index - 1]), false)
  {
    var op := log[index - 1];
    assert Duplicate(Receive(v, op, index).store, op.client, op.request);
    hide Held;
  }

  lemma DeliverChannels(log: seq<Op>, v: Server, index: nat)
    requires ChannelsHeld(log, v) && 1 <= index <= |log| && Truthful(log, Receive(v, log[index - 1], index))
    requires forall id | Held(log, v, id, false) :: Held(log, Receive(v, log[index - 1], index), id, false)
    ensures ChannelsHeld(log, Receive(v, log[index - 1], index))
  {
    if index > v.floor && Updates(log[index - 1]) {
      PushedHeld(log, v, index);
    }
    hide Held, Truthful, Apply, Executes;
  }

  lemma StepChannels(s: Service, step: Step)
    requires Enabled(s, step) && AllChannelsHeld(s) && AllTruthful(Perform(s, step))
    ensures AllChannelsHeld(Perform(s, step))
  {
    hide Held, Truthful;
    var s' := Perform(s, step);
    forall i | On(s', i) ensures ChannelsHeld(s'.log, s'.servers[i]) {
      assert On(s, i) && ChannelsHeld(s.log, s.servers[i]);
      forall id | Held(s.log, s.servers[i], id, false) ensures Held(s'.log, s'.servers[i], id, false) {
        StepHeld(s, step, i, id);
      }
      if step.Deliver? && step.server == i {
        DeliverChannels(s.log, s.servers[i], step.index);
      } else {
        OtherChannels(s, step, i);
      }
    }
  }

  /** No other step pushes. */
  lemma OtherChannels(s: Service, step: Step, i: int)
    requires Enabled(s, step) && On(s, i) && !(step.Deliver? && step.server == i) && ChannelsHeld(s.log, s.servers[i])
    requires On(Perform(s, step), i)
    requires forall id | Held(s.log, s.servers[i], id, false) :: Held(Perform(s, step).log, Perform(s, step).servers[i], id, false)
    ensures ChannelsHeld(Perform(s, step).log, Perform(s, step).servers[i])
  {
    hide Held, Apply, Executes, Duplicate, ReadBy;
    var v, v' := s.servers[i], Perform(s, step).servers[i];
    forall k, op | k in v'.channels && op in v'.channels[k] ensures k in v.channels && op in v.channels[k] {
    }
  }

  /** An OK just given is backed: by the channel, or by the table of a truthful server. */
  lemma StepOks(s: Service, step: Step)
    requires Candid(s) && Enabled(s, step)
    ensures OksBacked(Perform(s, step))
  {
    hide Inv, Held, Truthful, ChannelsHeld;
    var s' := Perform(s, step);
    forall ok | ok in s'.oks ensures On(s', ok.0) && Held(s'.log, s'.servers[ok.0], ok.1, false) {
      if ok in s.oks {
        StepHeld(s, step, ok.0, ok.1);
      } else {
        NewOk(s, step, ok);
        AnswerHeld(s, step);
        StepHeld(s, step, ok.0, ok.1);
      }
    }
  }

  /** Only a handler that pops or times out gives an OK, for its own update. */
  lemma NewOk(s: Service, step: Step, ok: (int, Id))
    requires Enabled(s, step) && ok in Perform(s, step).oks && ok !in s.oks
    ensures (step.Popped? || step.TimedOut?) && ok == (step.handler.server, IdOf(step.handler.op)) && Updates(step.handler.op)
    ensures step.Popped? ==> IdOf(s.servers[step.handler.server].channels[step.handler.index][0]) == IdOf(step.handler.op)
    ensures step.TimedOut? ==> Duplicate(s.servers[step.handler.server].store, step.handler.op.client, step.handler.op.request)
  {
    hide Apply, Executes, Receive, Load, ReadBy;
  }

  lemma AnswerHeld(s: Service, step: Step)
    requires Candid(s) && Enabled(s, step) && (step.Popped? || step.TimedOut?) && Updates(step.handler.op)
    requires step.Popped? ==> IdOf(s.servers[step.handler.server].channels[step.handler.index][0]) == IdOf(step.handler.op)
    requires step.TimedOut? ==> Duplicate(s.servers[step.handler.server].store, step.handler.op.client, step.handler.op.request)
    ensures Held(s.log, s.servers[step.handler.server], IdOf(step.handler.op), false)
  {
    hide Inv, Held, Truthful;
    var h, v := step.handler, s.servers[step.handler.server];
    assert On(s, h.server);
    InvIssued(s, true);
    if step.TimedOut? {
      TimeoutsBackedIffTruthful(s, h.server);
    } else {
      ServerOf(s, h.server, true);
      var op := v.channels[h.index][0];
      assert op in v.channels[h.index];
      ChannelOp(s.log, s.issued, v, h.index, op);
      assert op == h.op;
    }
  }

  /** An operation in a channel is a committed command. */
  lemma ChannelOp(log: seq<Op>, issued: map<Id, Op>, v: Server, index: int, op: Op)
    requires LogOk(log, issued) && ServerOk(log, v, true) && index in v.channels && op in v.channels[index]
    ensures IsIssued(issued, op)
  {
    assert op == log[index - 1];
  }

  /** A step that does not mislead keeps every server candid. */
  lemma StepCandid(s: Service, step: Step)
    requires Candid(s) && Enabled(s, step) && !Misleads(s, step)
    ensures Candid(Perform(s, step))
  {
    hide Inv, Perform, Enabled, Misleads, AllTruthful, AllChannelsHeld, OksBacked;
    StepInv(s, step, true);
    StepTruth(s, step);
    StepChannels(s, step);
    StepOks(s, step);
  }

  // ----- runs ------------------------------------------------------------------------------

  ghost predicate MisleadsAt(states: seq<Service>, steps: seq<Step>, k: int)
    requires 0 <= k < |steps| && k < |states|
  {
    Enabled(states[k], steps[k]) && Misleads(states[k], steps[k])
  }

  lemma InitCandid(n: nat)
    ensures Candid(Init(n))
  {
    InitInv(n, true);
    hide Inv, Held;
  }

  lemma {:induction false} RunCandid(n: nat, states: seq<Service>, steps: seq<Step>, k: int)
    requires IsRun(n, states, steps) && 0 <= k < |states| && forall j | 0 <= j < k :: !MisleadsAt(states, steps, j)
    ensures Candid(states[k])
    decreases k
  {
    hide Candid, Perform, Enabled, Misleads, Init;
    if k == 0 {
      InitCandid(n);
    } else {
      RunCandid(n, states, steps, k - 1);
      assert !MisleadsAt(states, steps, k - 1);
      StepCandid(states[k - 1], steps[k - 1]);
    }
  }

  lemma CandidTruth(s: Service)
    requires Candid(s)
    ensures Inv(s, true) && AllTruthful(s) && OksBacked(s)
  {
  }

  /** Exactly when: up to any point of any run, all servers are truthful all the time if and only if no step so far misleads. */
  lemma TruthfulIffNoneMisleads(n: nat, states: seq<Service>, steps: seq<Step>, m: int)
    requires IsRun(n, states, steps) && 0 <= m < |states|
    ensures (forall k | 0 <= k <= m :: AllTruthful(states[k])) <==> (forall k | 0 <= k < m :: !MisleadsAt(states, steps, k))
  {
    hide Candid, AllTruthful, Perform, Enabled, Misleads, Init, Inv;
    if forall k | 0 <= k < m :: !MisleadsAt(states, steps, k) {
      forall k | 0 <= k <= m ensures AllTruthful(states[k]) {
        RunCandid(n, states, steps, k);
        CandidTruth(states[k]);
      }
    } else {
      var k :| 0 <= k < m && MisleadsAt(states, steps, k);
      RunInv(n, states, steps, k, true);
      if AllTruthful(states[k]) {
        StepTruth(states[k], steps[k]);
        assert !AllTruthful(states[k + 1]);
      }
    }
  }

  /** While no step has misled, every OK comes from a server that executed the request or loaded a snapshot that covers it. */
  lemma OkMeansAppliedHere(n: nat, states: seq<Service>, steps: seq<Step>, k: int, ok: (int, Id))
    requires IsRun(n, states, steps) && 0 <= k < |states| && ok in states[k].oks
    requires forall j | 0 <= j < k :: !MisleadsAt(states, steps, j)
    ensures On(states[k], ok.0)
    ensures var v, log := states[k].servers[ok.0], states[k].log;
      || ok.1 in v.executed
      || (exists p | 0 <= p < |log| :: IdOf(log[p]) == ok.1 && p < v.loaded)
  {
    hide Candid, IsRun, MisleadsAt;
    RunCandid(n, states, steps, k);
    CandidTruth(states[k]);
    assert Held(states[k].log, states[k].servers[ok.0], ok.1, false);
  }

  // ----- orderly servers -------------------------------------------------------------------

  /**
    As long as nothing was skipped unloaded, the update lacked lies in the stretch the delivery skips:
    after its server's last command and last loaded snapshot, and before the command itself.
  */
  lemma LackedIsSkipped(log: seq<Op>, issued: map<Id, Op>, v: Server, index: nat)
    requires LogOk(log, issued) && ServerOk(log, v, false) && 1 <= index <= |log|
    ensures SkipsOwn(log, v, index) <==>
      && index > v.floor && Executes(v.store, log[index - 1])
      && LacksBetween(log, v, log[index - 1].client, log[index - 1].request - 1, Max(v.front, v.loaded), index - 1)
  {
    hide Held, ServerOk, LogOk;
    var op := log[index - 1];
    if SkipsOwn(log, v, index) {
      var p :| 0 <= p < |log| && LackedAt(log, v, op.client, op.request - 1, p);
      IssuedAt(log, issued, p);
      assert Occurs(log, index, (op.client, op.request));
      Earlier(log, issued, index, op.client, op.request, log[p].request);
      var q :| 0 <= q < index && q < |log| && IdOf(log[q]) == IdOf(log[p]);
      IssuedAt(log, issued, q);
      assert log[q] == log[p];
      assert LackedAt(log, v, op.client, op.request - 1, q);
      if q < Max(v.front, v.loaded) {
        ReachHeld(log, v, q);
      }
    }
  }

  lemma ReachHeld(log: seq<Op>, v: Server, q: int)
    requires ServerOk(log, v, false) && 0 <= q < |log| && q < Max(v.front, v.loaded) && Updates(log[q])
    ensures Held(log, v, IdOf(log[q]), false)
  {
    hide Held;
  }

  /** Where nothing was skipped unloaded, every server is truthful. */
  lemma OrderlyTruthful(s: Service)
    requires Inv(s, false)
    ensures AllTruthful(s)
  {
    hide Inv, LogOk, ServerOk, Held, Reach;
    forall i | On(s, i) ensures Truthful(s.log, s.servers[i]) {
      ServerOf(s, i, false);
      var v, log := s.servers[i], s.log;
      forall p | 0 <= p < |log| && Updates(log[p]) && Duplicate(v.store, log[p].client, log[p].request)
        ensures Held(log, v, IdOf(log[p]), false)
      {
        IssuedAt(log, s.issued, p);
        DuplicateReached(log, s.issued, v, false, log[p].client, log[p].request);
        ReachedHeld(log, s.issued, v, false, log[p]);
      }
    }
  }

  /** So no step of an orderly run misleads. */
  lemma OrderlyNeverMisleads(n: nat, states: seq<Service>, steps: seq<Step>, k: int)
    requires IsOrderlyRun(n, states, steps) && 0 <= k < |steps| && k < |states|
    ensures !MisleadsAt(states, steps, k)
  {
    hide Inv, Perform, Enabled, Misleads, Orderly, AllTruthful, Init;
    RunInv(n, states, steps, k, true);
    RunInv(n, states, steps, k, false);
    RunInv(n, states, steps, k + 1, false);
    OrderlyTruthful(states[k]);
    OrderlyTruthful(states[k + 1]);
    StepTruth(states[k], steps[k]);
  }
}
