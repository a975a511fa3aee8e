/**
  The key-value state machine: what a stream of committed commands makes of the store and of the
  table of last requests, and why a repeated request does no harm.
*/
module KvStore {

  datatype Option<T> = None | Some(value: T)

  datatype Kind = Put | Append | Get

  datatype Op = Op(kind: Kind, key: int, value: string, client: string, request: int)

  /** `data` is the skip list's map, `last` is `m_lastRequestId`. */
  datatype Store = Store(data: map<int, string>, last: map<string, int>)

  type Id = (string, int)

  function IdOf(op: Op): Id {
    (op.client, op.request)
  }

  predicate Updates(op: Op) {
    op.kind != Get
  }

  predicate Duplicate(s: Store, client: string, request: int) {
    client in s.last && request <= s.last[client]
  }

  predicate Executes(s: Store, op: Op) {
    !Duplicate(s, op.client, op.request) && Updates(op)
  }

  /** Put and Append alike overwrite the key; a Get in the stream changes nothing. */
  function Apply(s: Store, op: Op): Store {
    if Executes(s, op) then Store(s.data[op.key := op.value], s.last[op.client := op.request]) else s
  }

  function Replay(s: Store, ops: seq<Op>): Store
    decreases |ops|
  {
    if ops == [] then s else Replay(Apply(s, ops[0]), ops[1..])
  }

  lemma {:induction false} ReplaySplit(s: Store, a: seq<Op>, b: seq<Op>)
    ensures Replay(s, a + b) == Replay(Replay(s, a), b)
    decreases |a|
  {
    if a == [] {
      assert a + b == b;
    } else {
      assert (a + b)[0] == a[0] && (a + b)[1..] == a[1..] + b;
      ReplaySplit(Apply(s, a[0]), a[1..], b);
    }
  }

  lemma ReplayOne(s: Store, ops: seq<Op>, op: Op)
    ensures Replay(s, ops + [op]) == Apply(Replay(s, ops), op)
  {
    ReplaySplit(s, ops, [op]);
    assert [op][1..] == [];
    assert Replay(Apply(Replay(s, ops), op), []) == Apply(Replay(s, ops), op);
  }

  // ----- the table -------------------------------------------------------------------------

  /** No client's last request falls. */
  predicate TableRises(s: Store, s': Store) {
    forall c | c in s.last :: c in s'.last && s.last[c] <= s'.last[c]
  }

  /** The table is monotone per client over any stream. */
  lemma {:induction false} TableMonotone(s: Store, ops: seq<Op>)
    ensures TableRises(s, Replay(s, ops))
    decreases |ops|
  {
    if ops != [] {
      TableMonotone(Apply(s, ops[0]), ops[1..]);
    }
  }

  /** Once an update with this id has gone by, executed or not, the id is a duplicate for good. */
  lemma UpdateSettles(s: Store, ops: seq<Op>, i: int)
    requires 0 <= i < |ops| && Updates(ops[i])
    ensures Duplicate(Replay(s, ops), ops[i].client, ops[i].request)
  {
    var before := Replay(s, ops[..i]);
    assert ops == (ops[..i] + [ops[i]]) + ops[i + 1..];
    ReplaySplit(s, ops[..i] + [ops[i]], ops[i + 1..]);
    ReplayOne(s, ops[..i], ops[i]);
    TableMonotone(Apply(before, ops[i]), ops[i + 1..]);
  }

  // ----- what a stream leaves --------------------------------------------------------------

  /** Position i is an update of the client. */
  predicate UpdateOf(ops: seq<Op>, i: int, client: string) {
    0 <= i < |ops| && ops[i].kind != Get && ops[i].client == client
  }

  /** The table a stream leaves: for each client the latest request among its updates and what stood there before. */
  ghost predicate TableLeft(s: Store, ops: seq<Op>, b: Store) {
    forall c ::
      && (c in b.last <==> c in s.last || exists i :: UpdateOf(ops, i, c))
      && (c in b.last ==>
            && (c in s.last ==> s.last[c] <= b.last[c])
            && (forall i | UpdateOf(ops, i, c) :: ops[i].request <= b.last[c])
            && ((c in s.last && b.last[c] == s.last[c]) || exists i :: UpdateOf(ops, i, c) && ops[i].request == b.last[c]))
  }

  /** Position i's update takes effect: no entry of the table and no earlier update of its client is as late. */
  ghost predicate TakesEffect(s: Store, ops: seq<Op>, i: int)
    requires 0 <= i < |ops|
  {
    && ops[i].kind != Get
    && (ops[i].client in s.last ==> s.last[ops[i].client] < ops[i].request)
    && forall j | 0 <= j < i && UpdateOf(ops, j, ops[i].client) :: ops[j].request < ops[i].request
  }

  ghost predicate Writes(s: Store, ops: seq<Op>, i: int, k: int) {
    0 <= i < |ops| && TakesEffect(s, ops, i) && ops[i].key == k
  }

  /** No position behind i writes the key. */
  ghost predicate LastWrite(s: Store, ops: seq<Op>, i: int, k: int) {
    Writes(s, ops, i, k) && forall j | i < j :: !Writes(s, ops, j, k)
  }

  /** The data a stream leaves: under each key the value of the last update of it that takes effect, or what stood there. */
  ghost predicate DataLeft(s: Store, ops: seq<Op>, b: Store) {
    forall k ::
      && (k in b.data <==> k in s.data || exists i :: Writes(s, ops, i, k))
      && (forall i | LastWrite(s, ops, i, k) :: k in b.data && b.data[k] == ops[i].value)
      && ((forall i :: !Writes(s, ops, i, k)) && k in s.data ==> k in b.data && b.data[k] == s.data[k])
  }

  lemma TableOne(s: Store, ops: seq<Op>, b: Store, op: Op)
    requires TableLeft(s, ops, b)
    ensures TableLeft(s, ops + [op], Apply(b, op))
  {
    var more, b' := ops + [op], Apply(b, op);
    forall c
      ensures c in b'.last <==> c in s.last || exists i :: UpdateOf(more, i, c)
      ensures c in b'.last ==>
        && (c in s.last ==> s.last[c] <= b'.last[c])
        && (forall i | UpdateOf(more, i, c) :: more[i].request <= b'.last[c])
        && ((c in s.last && b'.last[c] == s.last[c]) || exists i :: UpdateOf(more, i, c) && more[i].request == b'.last[c])
    {
      assert forall i | 0 <= i < |ops| :: UpdateOf(more, i, c) <==> UpdateOf(ops, i, c);
      assert UpdateOf(more, |ops|, c) <==> op.kind != Get && op.client == c;
    }
  }

  /** Whether the last command executes is decided by the stream before it. */
  lemma ExecutesIs(s: Store, ops: seq<Op>, b: Store, op: Op)
    requires TableLeft(s, ops, b)
    ensures Executes(b, op) <==> TakesEffect(s, ops + [op], |ops|)
  {
    var more, c := ops + [op], op.client;
    assert more[|ops|] == op;
    assert forall i | 0 <= i < |ops| :: UpdateOf(more, i, c) <==> UpdateOf(ops, i, c);
    assert c in b.last <==> c in s.last || exists i :: UpdateOf(ops, i, c);
    assert forall i | UpdateOf(ops, i, c) :: more[i] == ops[i];
  }

  lemma WritesLonger(s: Store, ops: seq<Op>, op: Op, i: int, k: int)
    requires i < |ops|
    ensures Writes(s, ops + [op], i, k) <==> Writes(s, ops, i, k)
  {
    if 0 <= i {
      assert (ops + [op])[i] == ops[i];
      assert forall j | 0 <= j < i :: UpdateOf(ops + [op], j, ops[i].client) <==> UpdateOf(ops, j, ops[i].client);
    }
  }

  lemma DataOne(s: Store, ops: seq<Op>, b: Store, op: Op)
    requires TableLeft(s, ops, b) && DataLeft(s, ops, b)
    ensures DataLeft(s, ops + [op], Apply(b, op))
  {
    ExecutesIs(s, ops, b, op);
    hide TableLeft, TakesEffect;
    var more, b' := ops + [op], Apply(b, op);
    forall k
      ensures k in b'.data <==> k in s.data || exists i :: Writes(s, more, i, k)
      ensures forall i | LastWrite(s, more, i, k) :: k in b'.data && b'.data[k] == more[i].value
      ensures (forall i :: !Writes(s, more, i, k)) && k in s.data ==> k in b'.data && b'.data[k] == s.data[k]
    {
      forall i | i < |ops| ensures Writes(s, more, i, k) <==> Writes(s, ops, i, k) {
        WritesLonger(s, ops, op, i, k);
      }
      assert Writes(s, more, |ops|, k) <==> TakesEffect(s, more, |ops|) && op.key == k;
      assert k in b.data <==> k in s.data || exists i :: Writes(s, ops, i, k);
      forall i | LastWrite(s, more, i, k) ensures k in b'.data && b'.data[k] == more[i].value {
        if i < |ops| {
          assert !Writes(s, more, |ops|, k) && LastWrite(s, ops, i, k);
          assert more[i] == ops[i];
        }
      }
    }
  }

  /** What a replayed stream leaves, of the table and under every key, whatever stood there before. */
  lemma {:induction false} ReplayLeaves(s: Store, ops: seq<Op>)
    ensures TableLeft(s, ops, Replay(s, ops)) && DataLeft(s, ops, Replay(s, ops))
    decreases |ops|
  {
    if ops != [] {
      hide TableLeft, DataLeft, Apply;
      var n := |ops| - 1;
      ReplayLeaves(s, ops[..n]);
      assert ops == ops[..n] + [ops[n]];
      ReplayOne(s, ops[..n], ops[n]);
      TableOne(s, ops[..n], Replay(s, ops[..n]), ops[n]);
      DataOne(s, ops[..n], Replay(s, ops[..n]), ops[n]);
    } else {
      NothingLeft(s);
    }
  }

  lemma NothingLeft(s: Store)
    ensures TableLeft(s, [], s) && DataLeft(s, [], s)
  {
  }

  /** A key that is written is written last somewhere, so its value is determined. */
  lemma {:induction false} SomeLastWrite(s: Store, ops: seq<Op>, i: int, k: int) returns (j: int)
    requires Writes(s, ops, i, k)
    ensures i <= j && LastWrite(s, ops, j, k)
    decreases |ops| - i
  {
    hide TakesEffect;
    if j' :| i < j' && Writes(s, ops, j', k) {
      j := SomeLastWrite(s, ops, j', k);
    } else {
      j := i;
    }
  }

  /** Put twice, the key has the second value. */
  lemma SecondPutWins()
    ensures Replay(Store(map[], map[]), [Op(Put, 1, "a", "c", 1), Op(Put, 1, "b", "c", 2)]) == Store(map[1 := "b"], map["c" := 2])
  {
    var a, b := Op(Put, 1, "a", "c", 1), Op(Put, 1, "b", "c", 2);
    assert [a, b][1..] == [b] && [b][1..] == [];
    assert Apply(Store(map[], map[]), a) == Store(map[1 := "a"], map["c" := 1]);
    assert Apply(Store(map[1 := "a"], map["c" := 1]), b) == Store(map[1 := "b"], map["c" := 2]);
    assert Replay(Store(map[1 := "b"], map["c" := 2]), []) == Store(map[1 := "b"], map["c" := 2]);
    assert Replay(Store(map[1 := "a"], map["c" := 1]), [b]) == Store(map[1 := "b"], map["c" := 2]);
  }

  // ----- retry idempotence -----------------------------------------------------------------

  /** Position i is a Get, or follows an update of its client with the same or a later request. */
  predicate Idle(ops: seq<Op>, i: int)
    requires 0 <= i < |ops|
  {
    !Updates(ops[i]) || exists j | 0 <= j < i :: Updates(ops[j]) && ops[j].client == ops[i].client && ops[j].request >= ops[i].request
  }

  /** Position i carries an id that stood in the stream before. */
  predicate Repeats(ops: seq<Op>, i: int)
    requires 0 <= i < |ops|
  {
    exists j | 0 <= j < i :: IdOf(ops[j]) == IdOf(ops[i])
  }

  /** The stream with every later repeat of an id deleted. */
  function Once(ops: seq<Op>): seq<Op>
    decreases |ops|
  {
    if ops == [] then []
    else
      var last := |ops| - 1;
      if Repeats(ops, last) then Once(ops[..last]) else Once(ops[..last]) + [ops[last]]
  }

  /** No repeat is the first update of its client with so late a request, as where every id names one operation. */
  predicate IdsSettled(ops: seq<Op>) {
    forall i | 0 <= i < |ops| && Repeats(ops, i) :: Idle(ops, i)
  }

  lemma IdleChangesNothing(s: Store, ops: seq<Op>, i: int)
    requires 0 <= i < |ops| && Idle(ops, i)
    ensures Replay(s, ops[..i + 1]) == Replay(s, ops[..i])
  {
    assert ops[..i + 1] == ops[..i] + [ops[i]];
    ReplayOne(s, ops[..i], ops[i]);
    if Updates(ops[i]) {
      var j :| 0 <= j < i && Updates(ops[j]) && ops[j].client == ops[i].client && ops[j].request >= ops[i].request;
      assert ops[..i][j] == ops[j];
      UpdateSettles(s, ops[..i], j);
    }
  }

  lemma IdsSettledPrefix(ops: seq<Op>)
    requires IdsSettled(ops) && ops != []
    ensures IdsSettled(ops[..|ops| - 1])
  {
    var short := ops[..|ops| - 1];
    forall i | 0 <= i < |short| && Repeats(short, i) ensures Idle(short, i) {
      assert Repeats(ops, i) && Idle(ops, i);
      if Updates(short[i]) {
        var j :| 0 <= j < i && Updates(ops[j]) && ops[j].client == ops[i].client && ops[j].request >= ops[i].request;
        assert short[j] == ops[j];
      }
    }
  }

  /**
    Retry idempotence: deleting every later repeat of a (ClientId, RequestId) from a stream changes
    neither the store nor the table.
  */
  lemma {:induction false} RetriesAreIdempotent(s: Store, ops: seq<Op>)
    requires IdsSettled(ops)
    ensures Replay(s, Once(ops)) == Replay(s, ops)
    decreases |ops|
  {
    if ops != [] {
      var last := |ops| - 1;
      IdsSettledPrefix(ops);
      RetriesAreIdempotent(s, ops[..last]);
      assert ops == ops[..last] + [ops[last]] && ops[..last + 1] == ops;
      if Repeats(ops, last) {
        IdleChangesNothing(s, ops, last);
      } else {
        ReplayOne(s, ops[..last], ops[last]);
        ReplayOne(s, Once(ops[..last]), ops[last]);
      }
    }
  }

  const EMPTY := Store(map[], map[])

  /** From the empty store every entry of the table comes from an update of the stream. */
  lemma {:induction false} TableFromUpdates(ops: seq<Op>, client: string) returns (j: int)
    requires client in Replay(EMPTY, ops).last
    ensures 0 <= j < |ops| && Updates(ops[j]) && ops[j].client == client && ops[j].request == Replay(EMPTY, ops).last[client]
    decreases |ops|
  {
    assert ops != [];
    var n := |ops| - 1;
    assert ops == ops[..n] + [ops[n]];
    ReplayOne(EMPTY, ops[..n], ops[n]);
    if Executes(Replay(EMPTY, ops[..n]), ops[n]) && ops[n].client == client {
      j := n;
    } else {
      j := TableFromUpdates(ops[..n], client);
    }
  }

  /** The first repeat that is not idle executes, and so the stream without it ends elsewhere. */
  lemma RepeatMatters(ops: seq<Op>, i: int)
    requires 0 <= i < |ops| && IdsSettled(ops[..i]) && Repeats(ops, i) && !Idle(ops, i)
    ensures Replay(EMPTY, Once(ops[..i + 1])) != Replay(EMPTY, ops[..i + 1])
  {
    var before, op := Replay(EMPTY, ops[..i]), ops[i];
    RetriesAreIdempotent(EMPTY, ops[..i]);
    if op.client in before.last {
      var j := TableFromUpdates(ops[..i], op.client);
      assert Updates(ops[j]) && ops[j].client == op.client;
    }
    assert ops[..i + 1] == ops[..i] + [op] && ops[..i + 1][..i] == ops[..i];
    ReplayOne(EMPTY, ops[..i], op);
    assert Repeats(ops[..i + 1], i) by {
      var j :| 0 <= j < i && IdOf(ops[j]) == IdOf(op);
      assert IdOf(ops[..i + 1][j]) == IdOf(ops[..i + 1][i]);
    }
    assert op.client in Apply(before, op).last && Apply(before, op).last[op.client] == op.request;
  }

  lemma IdsSettledUpTo(ops: seq<Op>, n: nat)
    requires IdsSettled(ops) && n <= |ops|
    ensures IdsSettled(ops[..n])
    decreases |ops|
  {
    if n < |ops| {
      IdsSettledPrefix(ops);
      assert ops[..|ops| - 1][..n] == ops[..n];
      IdsSettledUpTo(ops[..|ops| - 1], n);
    } else {
      assert ops[..n] == ops;
    }
  }

  /**
    Exactly when: deleting the repeats leaves a server that starts empty as it was, at every point of
    the stream, if and only if the stream's ids are settled.
  */
  lemma RetriesIdempotentIffSettled(ops: seq<Op>)
    ensures IdsSettled(ops) <==> forall n | 0 <= n <= |ops| :: Replay(EMPTY, Once(ops[..n])) == Replay(EMPTY, ops[..n])
  {
    if IdsSettled(ops) {
      forall n | 0 <= n <= |ops| ensures Replay(EMPTY, Once(ops[..n])) == Replay(EMPTY, ops[..n]) {
        IdsSettledUpTo(ops, n);
        RetriesAreIdempotent(EMPTY, ops[..n]);
      }
    } else {
      var i := FirstUnsettled(ops);
      RepeatMatters(ops, i);
    }
  }

  lemma {:induction false} FirstUnsettled(ops: seq<Op>) returns (i: int)
    requires !IdsSettled(ops)
    ensures 0 <= i < |ops| && IdsSettled(ops[..i]) && Repeats(ops, i) && !Idle(ops, i)
    decreases |ops|
  {
    var short := ops[..|ops| - 1];
    if IdsSettled(short) {
      i := |ops| - 1;
      forall k | 0 <= k < i && Repeats(ops, k) ensures Idle(ops, k) {
        SamePosition(ops, k);
      }
    } else {
      i := FirstUnsettled(short);
      SamePosition(ops, i);
      assert short[..i] == ops[..i];
    }
  }

  lemma SamePosition(ops: seq<Op>, k: int)
    requires 0 <= k < |ops| - 1
    ensures Repeats(ops, k) <==> Repeats(ops[..|ops| - 1], k)
    ensures Idle(ops, k) <==> Idle(ops[..|ops| - 1], k)
  {
    var short := ops[..|ops| - 1];
    assert forall j | 0 <= j <= k :: short[j] == ops[j];
    assert Repeats(ops, k) ==> Repeats(short, k) by {
      if Repeats(ops, k) {
        var j :| 0 <= j < k && IdOf(ops[j]) == IdOf(ops[k]);
        assert IdOf(short[j]) == IdOf(short[k]);
      }
    }
  }

  /** Where an id names a Get first and an update later, deleting the repeat loses the update. */
  lemma SettledIdsNeeded()
    ensures var ops := [Op(Get, 1, "", "c", 1), Op(Put, 1, "x", "c", 1)];
      !IdsSettled(ops) && Replay(Store(map[], map[]), Once(ops)) != Replay(Store(map[], map[]), ops)
  {
    var first, second := Op(Get, 1, "", "c", 1), Op(Put, 1, "x", "c", 1);
    var ops, s := [first, second], Store(map[], map[]);
    assert IdOf(ops[0]) == IdOf(ops[1]) && Repeats(ops, 1) && !Idle(ops, 1);
    assert ops[..1] == [first] && [first][..0] == [];
    assert Once([first]) == [] + [first] by {
      assert !Repeats([first], 0);
    }
    assert Once(ops) == [first];
    assert ops[1..] == [second] && [second][1..] == [] && [first][1..] == [];
    assert Replay(s, [first]) == s;
    assert Replay(s, [second]) == Apply(s, second);
    assert Apply(s, second).data[1] == "x";
  }

  // ----- at most once ----------------------------------------------------------------------

  /** Position i of the stream is executed. */
  predicate ExecutedAt(s: Store, ops: seq<Op>, i: int)
    requires 0 <= i < |ops|
  {
    Executes(Replay(s, ops[..i]), ops[i])
  }

  /** Each (ClientId, RequestId) is executed at most once, and a client's requests in increasing order. */
  lemma ExecutedAtMostOnce(s: Store, ops: seq<Op>, i: int, j: int)
    requires 0 <= i < j < |ops| && ExecutedAt(s, ops, i) && ExecutedAt(s, ops, j)
    ensures IdOf(ops[i]) != IdOf(ops[j])
    ensures ops[i].client == ops[j].client ==> ops[i].request < ops[j].request
  {
    assert ops[..j][i] == ops[i];
    UpdateSettles(s, ops[..j], i);
  }
}
