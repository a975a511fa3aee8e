/**
  The clerk: one request number for all attempts of a call, and the round of the servers it makes
  until one accepts.  What each attempt gets back is the network's, so it is an argument.
*/
module KvClerk {
  import opened KvStore

  datatype Err = OK | ErrNoKey | ErrWrongLeader | NoError

  /** What one attempt gets back; `received` is false if the call failed. */
  datatype Answer = Answer(received: bool, err: Err, value: string)

  datatype Attempt = Attempt(server: int, op: Op)

  predicate Refused(a: Answer) {
    !a.received || a.err == ErrWrongLeader
  }

  predicate Accepted(a: Answer) {
    a.received && a.err == OK
  }

  predicate Ends(a: Answer, kind: Kind) {
    Accepted(a) || (kind == Get && a.received && a.err == ErrNoKey)
  }

  /** Attempt after attempt: the same request each time, and the next server after a refusal. */
  ghost predicate Rounds(attempts: seq<Attempt>, answers: seq<Answer>, first: int, servers: nat, op: Op)
    requires servers > 0
  {
    && |attempts| <= |answers|
    && (forall a | 0 <= a < |attempts| :: attempts[a].op == op)
    && (|attempts| > 0 ==> attempts[0].server == first)
    && forall a | 0 <= a < |attempts| - 1 ::
         attempts[a + 1].server == if Refused(answers[a]) then (attempts[a].server + 1) % servers else attempts[a].server
  }

  /** The call ends with the first answer that ends it. */
  ghost predicate EndsAtFirst(attempts: seq<Attempt>, answers: seq<Answer>, kind: Kind, ended: bool)
    requires |attempts| <= |answers|
  {
    && (forall a | 0 <= a < |attempts| - 1 :: !Ends(answers[a], kind))
    && (ended <==> |attempts| > 0 && Ends(answers[|attempts| - 1], kind))
    && (!ended ==> |attempts| == |answers|)
  }

  class Clerk {
    const clientId: string
    const servers: nat
    var requestId: int
    var recentLeaderId: int

    ghost predicate Valid()
      reads this
    {
      servers > 0 && 0 <= recentLeaderId < servers
    }

    constructor (clientId: string, servers: nat)
      requires servers > 0
      ensures Valid() && requestId == 0 && recentLeaderId == 0
      ensures this.clientId == clientId && this.servers == servers
    {
      this.clientId, this.servers := clientId, servers;
      requestId, recentLeaderId := 0, 0;
    }

    method PutAppend(key: int, value: string, kind: Kind, answers: seq<Answer>) returns (attempts: seq<Attempt>, returned: bool)
      requires Valid() && kind != Kind.Get
      modifies this
      ensures Valid() && requestId == old(requestId) + 1
      ensures Rounds(attempts, answers, old(recentLeaderId), servers, Op(kind, key, value, clientId, requestId))
      ensures EndsAtFirst(attempts, answers, kind, returned)
      ensures recentLeaderId == if returned then attempts[|attempts| - 1].server else old(recentLeaderId)
    {
      requestId := requestId + 1;
      var op := Op(kind, key, value, clientId, requestId);
      var server := recentLeaderId;
      attempts, returned := [], false;
      while |attempts| < |answers|
        invariant Valid() && 0 <= server < servers && |attempts| <= |answers|
        invariant requestId == old(requestId) + 1 && recentLeaderId == old(recentLeaderId)
        invariant Rounds(attempts, answers, recentLeaderId, servers, op)
        invariant |attempts| == 0 ==> server == recentLeaderId
        invariant |attempts| > 0 ==>
          server == if Refused(answers[|attempts| - 1]) then (attempts[|attempts| - 1].server + 1) % servers else attempts[|attempts| - 1].server
        invariant forall a | 0 <= a < |attempts| :: !Ends(answers[a], kind)
        decreases |answers| - |attempts|
      {
        var answer := answers[|attempts|];
        attempts := attempts + [Attempt(server, op)];
        if !answer.received || answer.err == ErrWrongLeader {
          server := (server + 1) % servers;
        } else if answer.err == OK {
          recentLeaderId := server;
          returned := true;
          return;
        }
      }
    }

    method Get(key: int, answers: seq<Answer>) returns (attempts: seq<Attempt>, returned: bool, value: string)
      requires Valid()
      modifies this
      ensures Valid() && requestId == old(requestId) + 1
      ensures Rounds(attempts, answers, old(recentLeaderId), servers, Op(Kind.Get, key, "", clientId, requestId))
      ensures EndsAtFirst(attempts, answers, Kind.Get, returned)
      ensures var accepted := returned && Accepted(answers[|attempts| - 1]);
        && value == (if accepted then answers[|attempts| - 1].value else "")
        && recentLeaderId == if accepted then attempts[|attempts| - 1].server else old(recentLeaderId)
    {
      requestId := requestId + 1;
      var op := Op(Kind.Get, key, "", clientId, requestId);
      var server := recentLeaderId;
      attempts, returned, value := [], false, "";
      while |attempts| < |answers|
        invariant Valid() && 0 <= server < servers && |attempts| <= |answers|
        invariant requestId == old(requestId) + 1 && recentLeaderId == old(recentLeaderId)
        invariant Rounds(attempts, answers, recentLeaderId, servers, op)
        invariant |attempts| == 0 ==> server == recentLeaderId
        invariant |attempts| > 0 ==>
          server == if Refused(answers[|attempts| - 1]) then (attempts[|attempts| - 1].server + 1) % servers else attempts[|attempts| - 1].server
        invariant forall a | 0 <= a < |attempts| :: !Ends(answers[a], Kind.Get)
        decreases |answers| - |attempts|
      {
        var answer := answers[|attempts|];
        attempts := attempts + [Attempt(server, op)];
        if !answer.received || answer.err == ErrWrongLeader {
          server := (server + 1) % servers;
        } else if answer.err == ErrNoKey {
          returned := true;
          return;
        } else if answer.err == OK {
          recentLeaderId := server;
          returned, value := true, answer.value;
          return;
        }
      }
    }
  }

  lemma {:induction false} RefusedServer(attempts: seq<Attempt>, answers: seq<Answer>, first: int, servers: nat, op: Op, a: int)
    requires servers > 0 && 0 <= first < servers && Rounds(attempts, answers, first, servers, op) && 0 <= a < |attempts|
    requires forall b | 0 <= b < a :: Refused(answers[b])
    ensures attempts[a].server == (first + a) % servers
    decreases a
  {
    if a > 0 {
      RefusedServer(attempts, answers, first, servers, op, a - 1);
      ModStep(first + a - 1, servers);
    }
  }

  lemma ModStep(x: int, n: nat)
    requires n > 0 && x >= 0
    ensures (x % n + 1) % n == (x + 1) % n
  {
    var q, r := x / n, x % n;
    assert x == q * n + r;
    if r + 1 == n {
      ModOf(x + 1, n, q + 1, 0);
      ModOf(n, n, 1, 0);
    } else {
      ModOf(x + 1, n, q, r + 1);
      ModOf(r + 1, n, 0, r + 1);
    }
  }

  lemma ModOf(x: int, n: nat, q: int, r: int)
    requires n > 0 && 0 <= r < n && x == q * n + r
    ensures x % n == r
  {
    var d := x / n - q;
    assert d * n == r - x % n;
    MulBounds(d, n);
  }

  lemma MulBounds(d: int, n: int)
    requires n > 0
    ensures d >= 1 ==> d * n >= n
    ensures d <= -1 ==> d * n <= 0 - n
  {
    if d >= 1 {
      assert (d - 1) * n >= 0;
    } else if d <= -1 {
      assert (-1 - d) * n >= 0;
    }
  }

  /** After as many refusals as there are servers, every server has been asked. */
  lemma EveryServerAsked(attempts: seq<Attempt>, answers: seq<Answer>, first: int, servers: nat, op: Op, server: int) returns (a: int)
    requires servers > 0 && 0 <= first < servers && 0 <= server < servers
    requires Rounds(attempts, answers, first, servers, op) && |attempts| >= servers
    requires forall b | 0 <= b < servers :: Refused(answers[b])
    ensures 0 <= a < servers && attempts[a].server == server
  {
    a := if server >= first then server - first else server - first + servers;
    RefusedServer(attempts, answers, first, servers, op, a);
    ModOf(first + a, servers, if server >= first then 0 else 1, server);
  }
}
