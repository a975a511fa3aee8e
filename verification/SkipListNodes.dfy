/**
  Skip list nodes, and the theory of a chain of them: the header followed by every element in key
  order.  Level i of the list is the chain without the nodes lower than i; `Next` is the position a
  forward pointer leads to, `Prev` the position whose pointer leads past a gap.
*/
module SkipListNodes {

  class Node {
    const key: int
    const value: string
    const level: nat
    const forward: array<Node?>

    constructor (key: int, value: string, level: nat)
      ensures this.key == key && this.value == value && this.level == level
      ensures fresh(forward) && forward.Length == level + 1
      ensures forall i | 0 <= i <= level :: forward[i] == null
    {
      this.key, this.value, this.level := key, value, level;
      forward := new Node?[level + 1](_ => null);
    }
  }

  /** The header, then the elements. */
  type Chain = seq<Node>

  ghost predicate Sorted(chain: Chain) {
    forall p, q | 1 <= p < q < |chain| :: chain[p].key < chain[q].key
  }

  /** Every node has its own pointer array, one slot a level; no element is lower than 1 or higher than the header. */
  ghost predicate Built(chain: Chain) {
    && |chain| > 0
    && (forall p | 0 <= p < |chain| :: chain[p].forward.Length == chain[p].level + 1)
    && (forall p | 1 <= p < |chain| :: 1 <= chain[p].level <= chain[0].level)
    && (forall p, q | 0 <= p < q < |chain| :: chain[p].forward != chain[q].forward)
  }

  /** The first position after p that is on level i; |chain| if there is none. */
  ghost function Next(chain: Chain, p: int, i: int): (q: int)
    requires 0 <= p < |chain|
    ensures p < q <= |chain|
    ensures forall r | p < r < q :: chain[r].level < i
    ensures q < |chain| ==> chain[q].level >= i
    decreases |chain| - p
  {
    if p + 1 == |chain| then |chain|
    else if chain[p + 1].level >= i then p + 1
    else Next(chain, p + 1, i)
  }

  /** The last position before the gap that is on level i. */
  ghost function Prev(chain: Chain, gap: int, i: int): (p: int)
    requires 0 < gap <= |chain| && i <= chain[0].level
    ensures 0 <= p < gap && chain[p].level >= i
    ensures forall r | p < r < gap :: chain[r].level < i
  {
    if chain[gap - 1].level >= i then gap - 1 else Prev(chain, gap - 1, i)
  }

  ghost function At(chain: Chain, q: int): Node?
    requires 0 <= q
  {
    if q < |chain| then chain[q] else null
  }

  lemma NextIs(chain: Chain, p: int, i: int, q: int)
    requires 0 <= p < q <= |chain|
    requires forall r | p < r < q :: chain[r].level < i
    requires q < |chain| ==> chain[q].level >= i
    ensures Next(chain, p, i) == q
  {
  }

  /** Every forward pointer leads to the next node of its level. */
  ghost predicate Linked(chain: Chain)
    requires Built(chain)
    reads set p | 0 <= p < |chain| :: chain[p].forward
  {
    forall p, i | 0 <= p < |chain| && 0 <= i <= chain[p].level :: chain[p].forward[i] == At(chain, Next(chain, p, i))
  }

  /** The keys below, and from, a gap. */
  ghost predicate Splits(chain: Chain, gap: int, key: int) {
    && 0 < gap <= |chain|
    && (forall p | 1 <= p < gap :: chain[p].key < key)
    && (forall p | gap <= p < |chain| :: chain[p].key >= key)
  }

  lemma GapInside(chain: Chain, gap: int, key: int)
    requires Splits(chain, gap, key)
    ensures 0 < gap <= |chain|
  {
  }

  lemma GapKey(chain: Chain, gap: int, key: int)
    requires Splits(chain, gap, key)
    ensures gap < |chain| ==> chain[gap].key >= key
  {
  }

  // ----- one node more or less -------------------------------------------------------------

  function With(chain: Chain, gap: int, n: Node): Chain
    requires 0 < gap <= |chain|
  {
    chain[..gap] + [n] + chain[gap..]
  }

  function Without(chain: Chain, gap: int): Chain
    requires 0 < gap < |chain|
  {
    chain[..gap] + chain[gap + 1..]
  }

  lemma WithoutWith(chain: Chain, gap: int)
    requires 0 < gap < |chain|
    ensures With(Without(chain, gap), gap, chain[gap]) == chain
  {
  }

  /** Where a position of the chain goes when a node enters the gap. */
  function Shift(p: int, gap: int): int {
    if p < gap then p else p + 1
  }

  lemma WithAt(chain: Chain, gap: int, n: Node)
    requires 0 < gap <= |chain|
    ensures |With(chain, gap, n)| == |chain| + 1 && With(chain, gap, n)[gap] == n
    ensures forall p | 0 <= p < |chain| :: With(chain, gap, n)[Shift(p, gap)] == chain[p]
  {
  }

  lemma WithHead(chain: Chain, gap: int, n: Node)
    requires 0 < gap <= |chain|
    ensures With(chain, gap, n)[0] == chain[0]
  {
  }

  /** A pointer of the longer chain: it leads to the new node just where that is next, and else where it led. */
  lemma NextWith(chain: Chain, gap: int, n: Node, p: int, i: int)
    requires 0 < gap <= |chain| && 0 <= p < |chain| && 0 <= i <= chain[p].level && i <= chain[0].level
    ensures At(With(chain, gap, n), Next(With(chain, gap, n), Shift(p, gap), i)) ==
      if i <= n.level && p == Prev(chain, gap, i) then n else At(chain, Next(chain, p, i))
  {
    var chain', q := With(chain, gap, n), Next(chain, p, i);
    WithAt(chain, gap, n);
    if i <= n.level && p == Prev(chain, gap, i) {
      assert forall r | p < r < gap :: chain'[Shift(r, gap)] == chain[r];
      NextIs(chain', p, i, gap);
    } else {
      var q' := if q < |chain| then Shift(q, gap) else |chain'|;
      NextSkips(chain, gap, n, p, i);
      NextIs(chain', Shift(p, gap), i, q');
    }
  }

  lemma PrevIs(chain: Chain, gap: int, i: int, p: int)
    requires 0 < gap <= |chain| && i <= chain[0].level && 0 <= p < gap && chain[p].level >= i
    requires forall r | p < r < gap :: chain[r].level < i
    ensures p == Prev(chain, gap, i)
  {
  }

  lemma NextSkips(chain: Chain, gap: int, n: Node, p: int, i: int)
    requires 0 < gap <= |chain| && 0 <= p < |chain| && 0 <= i <= chain[p].level && i <= chain[0].level
    requires !(i <= n.level && p == Prev(chain, gap, i))
    ensures var q, chain' := Next(chain, p, i), With(chain, gap, n);
      var q' := if q < |chain| then Shift(q, gap) else |chain'|;
      Shift(p, gap) < q' && forall r | Shift(p, gap) < r < q' :: chain'[r].level < i
  {
    var q, chain' := Next(chain, p, i), With(chain, gap, n);
    WithAt(chain, gap, n);
    var q' := if q < |chain| then Shift(q, gap) else |chain'|;
    forall r | Shift(p, gap) < r < q' ensures chain'[r].level < i {
      if r != gap {
        var was := if r < gap then r else r - 1;
        assert chain'[Shift(was, gap)] == chain[was];
      } else {
        PrevIs(chain, gap, i, p);
      }
    }
  }

  /** The new node's own pointers: where its predecessor's led. */
  lemma NextOfNew(chain: Chain, gap: int, n: Node, i: int)
    requires 0 < gap <= |chain| && 0 <= i <= chain[0].level
    ensures At(With(chain, gap, n), Next(With(chain, gap, n), gap, i)) == At(chain, Next(chain, Prev(chain, gap, i), i))
  {
    var chain', p := With(chain, gap, n), Prev(chain, gap, i);
    var q := Next(chain, p, i);
    WithAt(chain, gap, n);
    var q' := if q < |chain| then Shift(q, gap) else |chain'|;
    forall r | gap < r < q' ensures chain'[r].level < i {
      assert chain'[Shift(r - 1, gap)] == chain[r - 1];
    }
    NextIs(chain', gap, i, q');
  }

  ghost function ArraysOf(chain: Chain): set<object> {
    set p | 0 <= p < |chain| :: chain[p].forward
  }

  lemma ArraysWith(chain: Chain, gap: int, n: Node)
    requires 0 < gap <= |chain|
    ensures ArraysOf(With(chain, gap, n)) == ArraysOf(chain) + {n.forward}
  {
    var chain' := With(chain, gap, n);
    WithAt(chain, gap, n);
    forall a | a in ArraysOf(chain) ensures a in ArraysOf(chain') {
      var p :| 0 <= p < |chain| && chain[p].forward == a;
      assert chain'[Shift(p, gap)].forward == a;
    }
    forall a | a in ArraysOf(chain') ensures a in ArraysOf(chain) + {n.forward} {
      var p :| 0 <= p < |chain'| && chain'[p].forward == a;
      if p != gap {
        var was := if p < gap then p else p - 1;
        assert chain'[Shift(was, gap)] == chain[was];
      }
    }
    assert chain'[gap].forward == n.forward;
  }

  lemma BuiltWith(chain: Chain, gap: int, n: Node)
    requires Built(chain) && 0 < gap <= |chain| && n.forward.Length == n.level + 1 && 1 <= n.level <= chain[0].level
    requires forall p | 0 <= p < |chain| :: chain[p].forward != n.forward
    ensures Built(With(chain, gap, n))
  {
  }

  lemma BuiltWithout(chain: Chain, gap: int)
    requires Built(chain) && 0 < gap < |chain|
    ensures Built(Without(chain, gap))
  {
  }

  lemma WithoutFacts(chain: Chain, gap: int)
    requires 0 < gap < |chain|
    ensures |Without(chain, gap)| == |chain| - 1 && Without(chain, gap)[0] == chain[0]
    ensures forall p | 0 <= p < |chain| - 1 :: Without(chain, gap)[p] == chain[Shift(p, gap)]
  {
  }

  lemma SortedWith(chain: Chain, gap: int, n: Node)
    requires Sorted(chain) && Splits(chain, gap, n.key) && (gap < |chain| ==> chain[gap].key != n.key)
    ensures Sorted(With(chain, gap, n))
  {
  }

  /** No element is higher than `level`, and one reaches it unless it is 0. */
  ghost predicate Topped(chain: Chain, level: int) {
    && (forall p | 1 <= p < |chain| :: chain[p].level <= level)
    && (level > 0 ==> exists p :: 1 <= p < |chain| && chain[p].level == level)
  }

  lemma ToppedWith(chain: Chain, gap: int, n: Node, level: int)
    requires 0 < gap <= |chain| && Topped(chain, level) && level >= 0 && n.level >= 1
    ensures Topped(With(chain, gap, n), if n.level > level then n.level else level)
  {
    var chain' := With(chain, gap, n);
    if n.level >= level {
      assert chain'[gap].level == n.level;
    } else {
      var p :| 1 <= p < |chain| && chain[p].level == level;
      assert chain'[Shift(p, gap)].level == level;
    }
  }

  /** What a pointer of an old node must be once the new node is linked in on the levels below i. */
  ghost function Linking(chain: Chain, gap: int, n: Node, i: int, p: int, j: int): Node?
    requires 0 < gap <= |chain| && 0 <= p < |chain|
  {
    if j < i then At(With(chain, gap, n), Next(With(chain, gap, n), Shift(p, gap), j)) else At(chain, Next(chain, p, j))
  }

  /** Linking in one more level changes one pointer. */
  lemma LinkingStep(chain: Chain, gap: int, n: Node, i: int, p: int, j: int)
    requires 0 < gap <= |chain| && 0 <= p < |chain| && 0 <= i <= n.level <= chain[0].level && 0 <= j <= chain[p].level
    ensures Linking(chain, gap, n, i + 1, p, j) ==
      if j == i && p == Prev(chain, gap, i) then n else Linking(chain, gap, n, i, p, j)
  {
    if j == i {
      NextWith(chain, gap, n, p, i);
    }
  }

  lemma LinkingAhead(chain: Chain, gap: int, n: Node, i: int)
    requires 0 < gap <= |chain| && 0 <= i <= chain[0].level
    ensures Linking(chain, gap, n, i, Prev(chain, gap, i), i) == At(chain, Next(chain, Prev(chain, gap, i), i))
  {
  }

  lemma LinkingDone(chain: Chain, gap: int, n: Node, p: int, j: int)
    requires 0 < gap <= |chain| && 0 <= p < |chain| && 0 <= j <= chain[p].level && j <= chain[0].level
    ensures Linking(chain, gap, n, n.level + 1, p, j) == At(With(chain, gap, n), Next(With(chain, gap, n), Shift(p, gap), j))
  {
    if j > n.level {
      NextWith(chain, gap, n, p, j);
    }
  }

  /** What a pointer of a remaining node must be once the node is unlinked on the levels below i. */
  ghost function Unlinking(chain: Chain, gap: int, n: Node, i: int, p: int, j: int): Node?
    requires 0 < gap <= |chain| && 0 <= p < |chain|
  {
    if j < i then At(chain, Next(chain, p, j)) else At(With(chain, gap, n), Next(With(chain, gap, n), Shift(p, gap), j))
  }

  lemma UnlinkingStep(chain: Chain, gap: int, n: Node, i: int, p: int, j: int)
    requires 0 < gap <= |chain| && 0 <= p < |chain| && 0 <= i <= n.level <= chain[0].level && 0 <= j <= chain[p].level
    ensures Unlinking(chain, gap, n, i + 1, p, j) ==
      if j == i && p == Prev(chain, gap, i) then At(With(chain, gap, n), Next(With(chain, gap, n), gap, i))
      else Unlinking(chain, gap, n, i, p, j)
  {
    if j == i {
      NextWith(chain, gap, n, p, i);
      NextOfNew(chain, gap, n, i);
    }
  }

  lemma UnlinkingDone(chain: Chain, gap: int, n: Node, i: int, p: int, j: int)
    requires 0 < gap <= |chain| && 0 <= p < |chain| && 0 <= j <= chain[p].level && j <= chain[0].level && i > n.level
    ensures Unlinking(chain, gap, n, i, p, j) == At(chain, Next(chain, p, j))
  {
    if j >= i {
      NextWith(chain, gap, n, p, j);
    }
  }

  /** On a level the node is on, the pointer before the gap leads to it; on a higher level it does not. */
  lemma LeadsToNew(chain: Chain, gap: int, n: Node, i: int)
    requires 0 < gap <= |chain| && 0 <= i <= chain[0].level && (forall p | 0 <= p < |chain| :: chain[p] != n)
    ensures Prev(chain, gap, i) == Prev(With(chain, gap, n), gap, i)
    ensures Unlinking(chain, gap, n, i, Prev(chain, gap, i), i) == n <==> i <= n.level
  {
    PrevSame(chain, With(chain, gap, n), gap, i);
    NextWith(chain, gap, n, Prev(chain, gap, i), i);
  }

  lemma {:induction false} PrevSame(a: Chain, b: Chain, gap: int, i: int)
    requires 0 < gap <= |a| && gap <= |b| && i <= a[0].level && a[..gap] == b[..gap]
    ensures b[0] == a[0] && Prev(a, gap, i) == Prev(b, gap, i)
    decreases gap
  {
    assert a[..gap][gap - 1] == b[..gap][gap - 1] && a[..gap][0] == b[..gap][0];
    if a[gap - 1].level < i {
      assert a[..gap - 1] == a[..gap][..gap - 1] == b[..gap - 1];
      PrevSame(a, b, gap - 1, i);
    }
  }

  // ----- what the chain stores -------------------------------------------------------------

  ghost function Contents(chain: Chain): map<int, string>
    requires Sorted(chain)
  {
    map p | 1 <= p < |chain| :: chain[p].key := chain[p].value
  }

  ghost predicate HasKey(chain: Chain, key: int) {
    exists p :: 1 <= p < |chain| && chain[p].key == key
  }

  lemma ContentsKey(chain: Chain, key: int)
    requires Sorted(chain)
    ensures key in Contents(chain) <==> HasKey(chain, key)
  {
  }

  lemma ContentsValue(chain: Chain, p: int)
    requires Sorted(chain) && 1 <= p < |chain|
    ensures chain[p].key in Contents(chain) && Contents(chain)[chain[p].key] == chain[p].value
  {
  }

  /** A key is stored just if the node after its gap has it. */
  lemma KeyAtGap(chain: Chain, gap: int, key: int)
    requires Sorted(chain) && Splits(chain, gap, key)
    ensures key in Contents(chain) <==> gap < |chain| && chain[gap].key == key
    ensures gap < |chain| && chain[gap].key == key ==> Contents(chain)[key] == chain[gap].value
  {
    ContentsKey(chain, key);
    if gap < |chain| {
      ContentsValue(chain, gap);
    }
    hide Contents;
  }

  lemma ContentsWithKey(chain: Chain, gap: int, n: Node, k: int)
    requires Sorted(chain) && 0 < gap <= |chain| && Sorted(With(chain, gap, n)) && n.key !in Contents(chain)
    ensures k in Contents(With(chain, gap, n)) <==> k == n.key || k in Contents(chain)
    ensures k in Contents(With(chain, gap, n)) ==>
      Contents(With(chain, gap, n))[k] == if k == n.key then n.value else Contents(chain)[k]
  {
    hide Contents, Sorted;
    var chain' := With(chain, gap, n);
    WithAt(chain, gap, n);
    hide With;
    ContentsKey(chain, k);
    ContentsKey(chain', k);
    ContentsValue(chain', gap);
    if k in Contents(chain) {
      var p :| 1 <= p < |chain| && chain[p].key == k;
      ContentsValue(chain, p);
      ContentsValue(chain', Shift(p, gap));
    }
    if k in Contents(chain') {
      var p :| 1 <= p < |chain'| && chain'[p].key == k;
      if p != gap {
        var was := if p < gap then p else p - 1;
        assert chain'[Shift(was, gap)] == chain[was];
        ContentsValue(chain, was);
      }
    }
  }

  lemma ContentsWith(chain: Chain, gap: int, n: Node)
    requires Sorted(chain) && 0 < gap <= |chain| && Sorted(With(chain, gap, n)) && n.key !in Contents(chain)
    ensures Contents(With(chain, gap, n)) == Contents(chain)[n.key := n.value]
  {
    hide Contents, Sorted, With;
    forall k ensures k in Contents(With(chain, gap, n)) <==> k == n.key || k in Contents(chain)
      ensures k in Contents(With(chain, gap, n)) ==> Contents(With(chain, gap, n))[k] == if k == n.key then n.value else Contents(chain)[k]
    {
      ContentsWithKey(chain, gap, n, k);
    }
  }

  lemma SortedWithout(chain: Chain, gap: int)
    requires Sorted(chain) && 0 < gap < |chain|
    ensures Sorted(Without(chain, gap)) && chain[gap].key !in Contents(Without(chain, gap))
  {
    var short := Without(chain, gap);
    forall p | 1 <= p < |short| ensures short[p].key != chain[gap].key {
      assert short[p] == chain[Shift(p, gap)];
    }
    forall p, q | 1 <= p < q < |short| ensures short[p].key < short[q].key {
      assert short[p] == chain[Shift(p, gap)] && short[q] == chain[Shift(q, gap)];
    }
    ContentsKey(short, chain[gap].key);
    hide Contents;
  }

  lemma ContentsWithout(chain: Chain, gap: int)
    requires Sorted(chain) && 0 < gap < |chain|
    ensures Sorted(Without(chain, gap))
    ensures Contents(chain) == Contents(Without(chain, gap))[chain[gap].key := chain[gap].value]
    ensures Contents(Without(chain, gap)) == Contents(chain) - {chain[gap].key}
  {
    hide Contents, Sorted;
    SortedWithout(chain, gap);
    WithoutWith(chain, gap);
    ContentsWith(Without(chain, gap), gap, chain[gap]);
  }

  lemma {:induction false} ContentsSize(chain: Chain)
    requires Sorted(chain) && |chain| > 0
    ensures |Contents(chain)| == |chain| - 1
    decreases |chain|
  {
    if |chain| > 1 {
      hide Contents, Sorted;
      ContentsWithout(chain, |chain| - 1);
      SortedWithout(chain, |chain| - 1);
      ContentsSize(Without(chain, |chain| - 1));
    } else {
      assert Contents(chain) == map[];
    }
  }

  // ----- levels ----------------------------------------------------------------------------

  /** The elements of level i at positions from p on, in order. */
  ghost function Level(chain: Chain, p: int, i: int): seq<Node>
    requires 0 <= p
    decreases |chain| - p
  {
    if p >= |chain| then []
    else if chain[p].level >= i then [chain[p]] + Level(chain, p + 1, i)
    else Level(chain, p + 1, i)
  }

  lemma {:induction false} LevelFrom(chain: Chain, p: int, i: int, q: int)
    requires 0 <= p <= q <= |chain| && forall r | p <= r < q :: chain[r].level < i
    ensures Level(chain, p, i) == Level(chain, q, i)
    decreases q - p
  {
    if p < q {
      LevelFrom(chain, p + 1, i, q);
    }
  }

  /** Following the pointers of level i visits exactly the elements of level i. */
  lemma LevelStep(chain: Chain, p: int, i: int)
    requires 0 <= p < |chain|
    ensures var q := Next(chain, p, i);
      Level(chain, p + 1, i) == if q < |chain| then [chain[q]] + Level(chain, q + 1, i) else []
  {
    LevelFrom(chain, p + 1, i, Next(chain, p, i));
  }

  lemma {:induction false} LevelMembers(chain: Chain, p: int, i: int, n: Node)
    requires 1 <= p
    ensures n in Level(chain, p, i) <==> exists r :: p <= r < |chain| && chain[r] == n && n.level >= i
    decreases |chain| - p
  {
    if p < |chain| {
      LevelMembers(chain, p + 1, i, n);
    }
  }

  /** Every level is strictly sorted. */
  lemma {:induction false} LevelSorted(chain: Chain, p: int, i: int, a: int, b: int)
    requires Sorted(chain) && 1 <= p && 0 <= a < b < |Level(chain, p, i)|
    ensures Level(chain, p, i)[a].key < Level(chain, p, i)[b].key
    decreases |chain| - p
  {
    if chain[p].level >= i {
      var rest := Level(chain, p + 1, i);
      if a == 0 {
        LevelMembers(chain, p + 1, i, rest[b - 1]);
      } else {
        LevelSorted(chain, p + 1, i, a - 1, b - 1);
      }
    } else {
      LevelSorted(chain, p + 1, i, a, b);
    }
  }

  /** The nodes of a list that are at least as high as i. */
  ghost function Higher(nodes: seq<Node>, i: int): seq<Node> {
    if nodes == [] then []
    else if nodes[0].level >= i then [nodes[0]] + Higher(nodes[1..], i)
    else Higher(nodes[1..], i)
  }

  /** Level i+1 is a sublist of level i: what is left when the nodes of height i are taken out. */
  lemma {:induction false} LevelSublist(chain: Chain, p: int, i: int)
    requires 0 <= p
    ensures Level(chain, p, i + 1) == Higher(Level(chain, p, i), i + 1)
    decreases |chain| - p
  {
    if p < |chain| {
      LevelSublist(chain, p + 1, i);
      if chain[p].level >= i {
        assert Level(chain, p, i)[1..] == Level(chain, p + 1, i);
      }
    }
  }

  /** Level 0 holds every element. */
  lemma {:induction false} LevelZero(chain: Chain, p: int)
    requires 0 <= p <= |chain|
    ensures Level(chain, p, 0) == chain[p..]
    decreases |chain| - p
  {
    if p < |chain| {
      LevelZero(chain, p + 1);
    }
  }
}
