/**
  Three runs of the service that show what its guarantees cannot say: an OK from a server whose store
  has not seen the request, because a command overtook the snapshot that covers it; an update executed
  twice, because a late Get handler lowered the table between its two copies; and one executed twice
  with no handler at all, because a snapshot older than the store took the table back.
*/
module KvServiceRuns {
  import opened KvStore
  import opened KvService

  ghost predicate Reachable(s: Service) {
    exists n, states, steps :: IsRun(n, states, steps) && states[|steps|] == s
  }

  lemma Starts(n: nat)
    ensures Reachable(Init(n))
  {
    assert IsRun(n, [Init(n)], []);
  }

  lemma Continues(s: Service, step: Step)
    requires Reachable(s) && Enabled(s, step)
    ensures Reachable(Perform(s, step))
  {
    hide Enabled, Perform, Init;
    var n, states, steps :| IsRun(n, states, steps) && states[|steps|] == s;
    var states', steps' := states + [Perform(s, step)], steps + [step];
    forall k | 0 <= k < |steps'| ensures Enabled(states'[k], steps'[k]) && states'[k + 1] == Perform(states'[k], steps'[k]) {
      if k < |steps| {
        assert steps'[k] == steps[k] && states'[k] == states[k] && states'[k + 1] == states[k + 1];
      }
    }
    assert IsRun(n, states', steps') && states'[|steps'|] == Perform(s, step);
  }

  /** The next state of a run, written out. */
  lemma Goes(s: Service, step: Step, s': Service)
    requires Reachable(s) && Enabled(s, step) && s' == Perform(s, step)
    ensures Reachable(s')
  {
    Continues(s, step);
  }

  /** A delivery, by what it makes of its server. */
  lemma Delivers(s: Service, i: int, index: nat, v: Server, s': Service)
    requires Reachable(s) && On(s, i) && Deliverable(s.log, s.servers[i], index)
    requires v == Receive(s.servers[i], s.log[index - 1], index) && s' == s.(servers := s.servers[i := v])
    ensures Reachable(s')
  {
    Continues(s, Deliver(i, index));
  }

  /** A pop of the handler's own operation. */
  lemma Pops(s: Service, h: Handler, popped: map<int, seq<Op>>, s': Service)
    requires Reachable(s) && Open(s, h) && s.servers[h.server].channels[h.index] == [h.op]
    requires popped == s.servers[h.server].channels[h.index := []]
    requires s' == Settle(s.(servers := s.servers[h.server := s.servers[h.server].(channels := popped)]), h, true, true)
    ensures Reachable(s')
  {
    assert [h.op][1..] == [];
    Continues(s, Popped(h, true));
  }

  const PUT1 := Op(Put, 1, "a", "c", 1)
  const PUT2 := Op(Put, 1, "b", "c", 2)
  const GET1 := Op(Get, 1, "", "c", 1)

  // ----- a command overtakes a snapshot ----------------------------------------------------

  const AFTER1 := Store(map[1 := "a"], map["c" := 1])
  const AFTER2 := Store(map[1 := "b"], map["c" := 2])

  /** Server 0 commits, executes and answers request 1; a handler of server 1 still waits for it. */
  lemma FirstAnswered() returns (s: Service)
    ensures Reachable(s)
    ensures s == Service([PUT1],
      [FRESH.(store := AFTER1, front := 1, justTaken := true, executed := [("c", 1)]), FRESH.(channels := map[1 := []])],
      {Handler(1, PUT1, 1)}, {}, {}, map[("c", 1) := PUT1], {("c", 1)}, {(0, ("c", 1))})
  {
    hide Reachable;
    var h0, h1 := Handler(0, PUT1, 1), Handler(1, PUT1, 1);
    Starts(2);
    var s0 := Service([], [FRESH, FRESH], {}, {}, {}, map[], {}, {});
    assert Init(2) == s0;
    var s1 := s0.(issued := map[("c", 1) := PUT1]);
    Goes(s0, Issue(PUT1), s1);
    var s2 := s1.(servers := [FRESH, FRESH.(channels := map[1 := []])], waiting := {h1});
    Goes(s1, Wait(h1), s2);
    var s3 := s2.(servers := [FRESH.(channels := map[1 := []]), FRESH.(channels := map[1 := []])], waiting := {h1, h0});
    Goes(s2, Wait(h0), s3);
    var s4 := s3.(log := [PUT1]);
    Goes(s3, Commit(PUT1), s4);
    var v := FRESH.(store := AFTER1, front := 1, justTaken := true, channels := map[1 := [PUT1]], executed := [("c", 1)]);
    var s5 := s4.(servers := [v, FRESH.(channels := map[1 := []])]);
    assert Apply(EMPTY, PUT1) == AFTER1;
    Delivers(s4, 0, 1, v, s5);
    s := Service([PUT1],
      [FRESH.(store := AFTER1, front := 1, justTaken := true, executed := [("c", 1)]), FRESH.(channels := map[1 := []])],
      {h1}, {}, {}, map[("c", 1) := PUT1], {("c", 1)}, {(0, ("c", 1))});
    assert {h1, h0} - {h0} == {h1} && map[1 := [PUT1]][1 := []] - {1} == map[];
    Pops(s5, h0, map[1 := []], s);
  }

  /** Server 0 makes a snapshot of it, request 2 commits, and server 1's Raft installs the snapshot. */
  lemma SnapshotOnItsWay() returns (s: Service)
    ensures Reachable(s)
    ensures s.log == [PUT1, PUT2] && s.waiting == {Handler(1, PUT1, 1)} && |s.servers| == 2
    ensures s.servers[1] == FRESH.(channels := map[1 := []], installed := 1, flight := {Snap(1, AFTER1)})
  {
    hide Reachable;
    var t := FirstAnswered();
    var v, w := t.servers[0].(installed := 1), FRESH.(channels := map[1 := []]);
    var s1 := t.(snaps := {Snap(1, AFTER1)}, servers := [v, w]);
    Goes(t, MakeSnapshot(0), s1);
    var s2 := s1.(issued := map[("c", 1) := PUT1, ("c", 2) := PUT2]);
    Goes(s1, Issue(PUT2), s2);
    var s3 := s2.(log := [PUT1, PUT2]);
    Goes(s2, Commit(PUT2), s3);
    s := s3.(servers := [v, w.(installed := 1, flight := {Snap(1, AFTER1)})]);
    Goes(s3, RaftInstall(1, Snap(1, AFTER1)), s);
  }

  /**
    The overtaking run: server 1 answers OK for request 1, which it has not executed and no snapshot
    it has loaded covers; the one that does is still on its way, and request 2 overtook it.
  */
  lemma OvertakenOk() returns (s: Service)
    ensures Reachable(s) && |s.servers| == 2 && (1, ("c", 1)) in s.oks
    ensures s.servers[1].executed == [("c", 2)] && s.servers[1].loaded == 0
    ensures s.servers[1].flight == {Snap(1, AFTER1)}
  {
    hide Reachable;
    var t := SnapshotOnItsWay();
    var w := t.servers[1].(store := AFTER2, front := 2, justTaken := true, executed := [("c", 2)]);
    var s1 := t.(servers := [t.servers[0], w]);
    assert Apply(EMPTY, PUT2) == AFTER2;
    Delivers(t, 1, 2, w, s1);
    s := Perform(s1, TimedOut(Handler(1, PUT1, 1), false, true));
    Goes(s1, TimedOut(Handler(1, PUT1, 1), false, true), s);
  }

  // ----- a late Get handler ----------------------------------------------------------------

  lemma GetPushed()
    ensures Receive(FRESH.(channels := map[1 := []]), GET1, 1) ==
      FRESH.(front := 1, justTaken := true, channels := map[1 := [GET1]])
  {
    var empty: seq<Op> := [];
    assert empty + [GET1] == [GET1];
    assert map[1 := empty][1 := [GET1]] == map[1 := [GET1]];
  }

  const OPEN := FRESH.(channels := map[1 := []])

  /** Two handlers wait for the committed Get. */
  lemma GetCommitted() returns (s: Service)
    ensures Reachable(s)
    ensures s == Service([GET1], [OPEN, OPEN], {Handler(0, GET1, 1), Handler(1, GET1, 1)}, {}, {}, map[("c", 1) := GET1], {}, {})
  {
    hide Reachable;
    var h0, h1 := Handler(0, GET1, 1), Handler(1, GET1, 1);
    Starts(2);
    var s0 := Service([], [FRESH, FRESH], {}, {}, {}, map[], {}, {});
    assert Init(2) == s0;
    var s1 := s0.(issued := map[("c", 1) := GET1]);
    Goes(s0, Issue(GET1), s1);
    var s2 := s1.(servers := [OPEN, FRESH], waiting := {h0});
    Goes(s1, Wait(h0), s2);
    var s3 := s2.(servers := [OPEN, OPEN], waiting := {h0, h1});
    Goes(s2, Wait(h1), s3);
    s := s3.(log := [GET1]);
    Goes(s3, Commit(GET1), s);
  }

  /** Server 1 has answered the Get; a handler of server 0 still waits for it. */
  lemma GetAnswered() returns (s: Service)
    ensures Reachable(s)
    ensures s == Service([GET1],
      [OPEN, FRESH.(store := Store(map[], map["c" := 1]), front := 1, justTaken := true)],
      {Handler(0, GET1, 1)}, {}, {}, map[("c", 1) := GET1], {("c", 1)}, {})
  {
    hide Reachable;
    var h0, h1 := Handler(0, GET1, 1), Handler(1, GET1, 1);
    var t := GetCommitted();
    var v := FRESH.(front := 1, justTaken := true, channels := map[1 := [GET1]]);
    var s1 := t.(servers := [OPEN, v]);
    GetPushed();
    Delivers(t, 1, 1, v, s1);
    var s2 := s1.(servers := [OPEN, v.(channels := map[1 := []])], waiting := {h0}, reading := {h1});
    assert {h0, h1} - {h1} == {h0};
    Pops(s1, h1, map[1 := []], s2);
    s := Service([GET1],
      [OPEN, FRESH.(store := Store(map[], map["c" := 1]), front := 1, justTaken := true)],
      {h0}, {}, {}, map[("c", 1) := GET1], {("c", 1)}, {});
    assert map[1 := []] - {1} == FRESH.channels;
    Goes(s2, Read(h1, true), s);
  }

  /** Server 0 has executed the update, and its Get handler has only now heard of the Get. */
  lemma UpdateExecuted() returns (s: Service)
    ensures Reachable(s)
    ensures s.log == [GET1, PUT2] && s.issued == map[("c", 1) := GET1, ("c", 2) := PUT2]
    ensures |s.servers| == 2 && s.reading == {Handler(0, GET1, 1)}
    ensures s.servers[0] == FRESH.(store := AFTER2, front := 2, justTaken := true, channels := map[1 := []], executed := [("c", 2)])
  {
    hide Reachable;
    var t := GetAnswered();
    var h0, w := Handler(0, GET1, 1), t.servers[1];
    var s1 := t.(issued := map[("c", 1) := GET1, ("c", 2) := PUT2]);
    Goes(t, Issue(PUT2), s1);
    var s2 := s1.(log := [GET1, PUT2]);
    Goes(s1, Commit(PUT2), s2);
    var v := FRESH.(front := 1, justTaken := true, channels := map[1 := [GET1]]);
    var s3 := s2.(servers := [v, w]);
    GetPushed();
    Delivers(s2, 0, 1, v, s3);
    var v' := v.(store := AFTER2, front := 2, executed := [("c", 2)]);
    var s4 := s3.(servers := [v', w]);
    assert Apply(EMPTY, PUT2) == AFTER2;
    Delivers(s3, 0, 2, v', s4);
    s := s4.(servers := [v'.(channels := map[1 := []]), w], waiting := {}, reading := {h0});
    Pops(s4, h0, map[1 := []], s);
  }

  /** The late-Get run: one server executes one request twice. */
  lemma LateGetExecutesTwice() returns (s: Service)
    ensures Reachable(s) && |s.servers| == 2 && s.servers[0].executed == [("c", 2), ("c", 2)]
  {
    hide Reachable;
    var t := UpdateExecuted();
    var h0 := Handler(0, GET1, 1);
    var s1 := t.(log := [GET1, PUT2, PUT2]);
    assert t.log + [PUT2] == [GET1, PUT2, PUT2];
    Goes(t, Commit(PUT2), s1);
    var s2 := Perform(s1, Read(h0, true));
    Goes(s1, Read(h0, true), s2);
    var v := s2.servers[0];
    assert v.store.last == map["c" := 1];
    s := Perform(s2, Deliver(0, 3));
    Goes(s2, Deliver(0, 3), s);
  }

  // ----- a snapshot older than the store ---------------------------------------------------

  const PUTD := Op(Put, 2, "d", "d", 1)
  const ONLYD := Store(map[2 := "d"], map["d" := 1])
  const BOTH := Store(map[2 := "d", 1 := "a"], map["d" := 1, "c" := 1])
  const TOOKD := FRESH.(store := ONLYD, front := 1, justTaken := true, executed := [("d", 1)])

  /** Two clients' requests, one of them committed twice. */
  lemma ThreeCommitted() returns (s: Service)
    ensures Reachable(s)
    ensures s == Service([PUTD, PUT1, PUT1], [FRESH, FRESH], {}, {}, {}, map[("d", 1) := PUTD, ("c", 1) := PUT1], {}, {})
  {
    hide Reachable;
    Starts(2);
    var s0 := Service([], [FRESH, FRESH], {}, {}, {}, map[], {}, {});
    assert Init(2) == s0;
    var s1 := s0.(issued := map[("d", 1) := PUTD]);
    Goes(s0, Issue(PUTD), s1);
    var s2 := s1.(issued := map[("d", 1) := PUTD, ("c", 1) := PUT1]);
    Goes(s1, Issue(PUT1), s2);
    var s3, s4 := s2.(log := [PUTD]), s2.(log := [PUTD, PUT1]);
    Goes(s2, Commit(PUTD), s3);
    Goes(s3, Commit(PUT1), s4);
    s := s4.(log := [PUTD, PUT1, PUT1]);
    Goes(s4, Commit(PUT1), s);
  }

  /** Server 1 snapshots the first command; server 0 executes two. */
  lemma TwoExecuted() returns (s: Service)
    ensures Reachable(s)
    ensures s == Service([PUTD, PUT1, PUT1],
      [FRESH.(store := BOTH, front := 2, justTaken := true, executed := [("d", 1), ("c", 1)]), TOOKD.(installed := 1)],
      {}, {}, {Snap(1, ONLYD)}, map[("d", 1) := PUTD, ("c", 1) := PUT1], {}, {})
  {
    hide Reachable;
    var t := ThreeCommitted();
    assert Apply(EMPTY, PUTD) == ONLYD && Apply(ONLYD, PUT1) == BOTH;
    var s1 := t.(servers := [FRESH, TOOKD]);
    Delivers(t, 1, 1, TOOKD, s1);
    var s2 := s1.(servers := [FRESH, TOOKD.(installed := 1)], snaps := {Snap(1, ONLYD)});
    Goes(s1, MakeSnapshot(1), s2);
    var s3 := s2.(servers := [TOOKD, TOOKD.(installed := 1)]);
    Delivers(s2, 0, 1, TOOKD, s3);
    var v := FRESH.(store := BOTH, front := 2, justTaken := true, executed := [("d", 1), ("c", 1)]);
    s := s3.(servers := [v, TOOKD.(installed := 1)]);
    assert Receive(TOOKD, PUT1, 2) == v;
    Delivers(s3, 0, 2, v, s);
  }

  /** The old-snapshot run: nobody waits or reads, and yet one server executes one request twice. */
  lemma OldSnapshotExecutesTwice() returns (s: Service)
    ensures Reachable(s) && |s.servers| == 2 && s.waiting == {} && s.reading == {}
    ensures s.servers[0].executed == [("d", 1), ("c", 1), ("c", 1)]
  {
    hide Reachable;
    var t := TwoExecuted();
    var snap, w := Snap(1, ONLYD), t.servers[1];
    var v1 := t.servers[0].(installed := 1, flight := {snap});
    var s1 := t.(servers := [v1, w]);
    assert t.servers[0].flight + {snap} == {snap} && t.servers[0 := v1] == [v1, w];
    Goes(t, RaftInstall(0, snap), s1);
    var v2 := v1.(store := ONLYD, floor := 1, justTaken := false, flight := {}, loaded := 1);
    var s2 := s1.(servers := [v2, w]);
    assert Load(v1, snap, ONLYD.data) == v2 && s1.servers[0 := v2] == [v2, w];
    Goes(s1, LoadSnapshot(0, snap, ONLYD.data), s2);
    var v3 := v2.(store := BOTH, front := 3, justTaken := true, executed := [("d", 1), ("c", 1), ("c", 1)]);
    s := s2.(servers := [v3, w]);
    assert Apply(ONLYD, PUT1) == BOTH;
    Delivers(s2, 0, 3, v3, s);
  }
}
