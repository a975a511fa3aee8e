/**
  Log entries, whole logs and majorities.

  A server keeps the part of its log above its last snapshot (`m_logs`).  The proofs speak of its
  whole log: the covered part is remembered too, and index 0 holds `ORIGIN`, the imaginary entry
  every server starts from (`m_lastSnapshotIncludeIndex == m_lastSnapshotIncludeTerm == 0`).
  Position i of a whole log is the entry with logical index i.
*/
module RaftLog {

  datatype Entry = Entry(index: int, term: int, command: string)

  type Log = seq<Entry>

  const ORIGIN: Entry := Entry(0, 0, "")

  ghost predicate Shaped(log: Log) {
    && |log| > 0
    && log[0] == ORIGIN
    && forall i | 0 <= i < |log| :: log[i].index == i
  }

  function LastIndexOf(log: Log): int {
    |log| - 1
  }

  function LastTermOf(log: Log): int
    requires |log| > 0
  {
    log[|log| - 1].term
  }

  /** Both logs reach index i and are the same up to and including i. */
  ghost predicate Agree(a: Log, b: Log, i: int) {
    && 0 <= i < |a|
    && i < |b|
    && forall j | 0 <= j <= i :: a[j] == b[j]
  }

  lemma AgreeChain(a: Log, b: Log, c: Log, i: int, j: int)
    requires Agree(a, b, i) && Agree(c, b, j) && i <= j
    ensures Agree(a, c, i)
  {
  }

  lemma AgreeThrough(a: Log, b: Log, c: Log, i: int)
    requires Agree(a, b, i) && Agree(b, c, i)
    ensures Agree(a, c, i)
  {
  }

  lemma AgreeSelf(a: Log, i: int)
    requires 0 <= i < |a|
    ensures Agree(a, a, i)
  {
  }

  lemma AgreeShort(a: Log, b: Log, i: int, j: int)
    requires Agree(a, b, i) && 0 <= j <= i
    ensures Agree(a, b, j)
  {
  }

  lemma AgreeReaches(a: Log, b: Log, i: int)
    requires Agree(a, b, i)
    ensures 0 <= i < |a| && i < |b|
  {
  }

  lemma AgreeWhole(a: Log, b: Log)
    requires |a| > 0 && Agree(a, b, |a| - 1) && |b| <= |a|
    ensures a == b
  {
  }

  lemma AgreeLonger(a: Log, a': Log, b: Log, i: int)
    requires Agree(a, b, i) && |a| <= |a'| && forall j | 0 <= j < |a| :: a'[j] == a[j]
    ensures Agree(a', b, i)
  {
  }

  /** The test a voter applies: is log `a` at least as up to date as log `b`? */
  predicate UpToDate(a: Log, b: Log)
    requires |a| > 0 && |b| > 0
  {
    || LastTermOf(a) > LastTermOf(b)
    || (LastTermOf(a) == LastTermOf(b) && LastIndexOf(a) >= LastIndexOf(b))
  }

  /** The servers of a cluster of n, by their position in `m_peers`. */
  function Servers(n: nat): (ids: set<int>)
    ensures forall i :: i in ids <==> 0 <= i < n
    ensures |ids| == n
  {
    if n == 0 then {} else Servers(n - 1) + {n - 1}
  }

  lemma {:induction false} SubsetCount<T>(a: set<T>, b: set<T>)
    requires a <= b
    ensures |a| <= |b|
  {
    assert b == a + (b - a);
  }

  predicate Majority(n: nat, q: set<int>) {
    q <= Servers(n) && |q| >= n / 2 + 1
  }

  lemma MajoritiesMeet(n: nat, a: set<int>, b: set<int>) returns (v: int)
    requires Majority(n, a) && Majority(n, b)
    ensures v in a && v in b
  {
    if a * b == {} {
      assert |a + b| == |a| + |b|;
      SubsetCount(a + b, Servers(n));
      assert false;
    }
    v :| v in a * b;
  }
}
