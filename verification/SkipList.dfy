/**
  The skip list: a header, elements linked on several levels, and the search, insert, delete and
  update that rewire `forward` through an `update` array.  Keys are integers, standing for any
  totally ordered key.  `chain` is the list's ghost: its header and elements in key order.
*/
module SkipListModule {
  import opened SkipListNodes

  class SkipList {
    const maxLevel: nat
    const header: Node
    var level: nat
    var elementCount: int
    var seed: bv32
    ghost var chain: Chain

    ghost function Arrays(): set<object>
      reads this
    {
      ArraysOf(chain)
    }

    ghost predicate Valid()
      reads this, Arrays()
    {
      && Built(chain) && chain[0] == header && header.level == maxLevel >= 1
      && Sorted(chain)
      && elementCount == |chain| - 1
      && level <= maxLevel && Topped(chain, level)
      && Linked(chain)
    }

    /** The map the list stands for. */
    ghost function Model(): map<int, string>
      requires Sorted(chain)
      reads this
    {
      Contents(chain)
    }

    constructor (maxLevel: nat)
      requires maxLevel >= 1
      ensures Valid() && Model() == map[] && fresh(Arrays())
    {
      this.maxLevel := maxLevel;
      level, elementCount, seed := 0, 0, 1;
      var sentinel := new Node(0, "", maxLevel);
      header := sentinel;
      chain := [sentinel];
    }

    /** A level from 1 to the maximum, from the low bits of a xorshift generator. */
    method GetRandomLevel() returns (k: nat)
      requires maxLevel >= 1
      modifies this`seed
      ensures 1 <= k <= maxLevel
    {
      k := 1;
      seed := seed ^ (seed << 13);
      seed := seed ^ (seed >> 17);
      seed := seed ^ (seed << 5);
      while (seed & 1) == 1 && k < maxLevel
        invariant 1 <= k <= maxLevel
        decreases maxLevel - k
      {
        k := k + 1;
        seed := seed >> 1;
      }
    }

    // ----- search --------------------------------------------------------------------------

    /** The list is linked and the key belongs in the gap. */
    ghost predicate Searchable(key: int, gap: int)
      reads this, Arrays()
    {
      && Built(chain) && chain[0] == header && level <= maxLevel == header.level
      && Linked(chain) && Splits(chain, gap, key)
    }

    lemma SearchFacts(key: int, gap: int)
      requires Searchable(key, gap)
      ensures 0 < gap <= |chain| && chain[0] == header && level <= maxLevel == header.level
      ensures header.forward.Length == header.level + 1
      ensures Prev(chain, gap, 0) == gap - 1 && Next(chain, gap - 1, 0) == gap
    {
    }

    /** One level's walk: right while the next key on level i is smaller. */
    method WalkRight(current: Node, ghost at: int, i: nat, key: int, ghost gap: int) returns (stop: Node, ghost p: int)
      requires Searchable(key, gap)
      requires 0 <= at < gap && at < |chain| && chain[at] == current && i <= current.level && i <= header.level
      ensures 0 <= at <= p < gap <= |chain| && chain[0] == header && chain[p] == stop
      ensures i < stop.forward.Length == stop.level + 1
      ensures p == Prev(chain, gap, i) && stop.forward[i] == At(chain, Next(chain, p, i))
    {
      stop, p := current, at;
      while stop.forward[i] != null && stop.forward[i].key < key
        invariant 0 <= at <= p < gap && chain[p] == stop && i <= stop.level
        decreases |chain| - p
      {
        p := Next(chain, p, i);
        stop := stop.forward[i];
      }
      assert Next(chain, p, i) >= gap;
    }

    /** The gap a key belongs in. */
    ghost method FindGap(key: int) returns (gap: int)
      requires |chain| > 0 && Sorted(chain)
      ensures Splits(chain, gap, key)
    {
      gap := |chain|;
      while gap > 1 && chain[gap - 1].key >= key
        invariant 0 < gap <= |chain|
        invariant forall p | gap <= p < |chain| :: chain[p].key >= key
      {
        gap := gap - 1;
      }
    }

    method SearchElement(key: int) returns (found: bool, value: string)
      requires Valid()
      ensures found <==> key in Model()
      ensures found ==> value == Model()[key]
    {
      ghost var gap := FindGap(key);
      assert Searchable(key, gap) && Sorted(chain);
      hide Valid, Searchable, Sorted, Contents, Splits;
      SearchFacts(key, gap);
      var current := header;
      ghost var p := 0;
      var i: int := level;
      while i >= 0
        invariant -1 <= i <= level && 0 <= p < gap && chain[p] == current
        invariant i <= current.level && current.forward.Length == current.level + 1
        invariant i == -1 ==> p == Prev(chain, gap, 0) && current.forward[0] == At(chain, Next(chain, p, 0))
      {
        current, p := WalkRight(current, p, i, key, gap);
        i := i - 1;
      }
      GapIsSplit(key, gap);
      KeyAtGap(chain, gap, key);
      GapKey(chain, gap, key);
      var candidate := current.forward[0];
      if candidate != null && candidate.key == key {
        return true, candidate.value;
      }
      return false, "";
    }

    lemma GapIsSplit(key: int, gap: int)
      requires Searchable(key, gap)
      ensures Splits(chain, gap, key)
    {
    }

    /** The search that fills the update array: slot i gets the node before the gap on level i. */
    method FillUpdate(key: int, ghost gap: int) returns (update: array<Node?>)
      requires Searchable(key, gap)
      ensures fresh(update) && update.Length == maxLevel + 1
      ensures 0 < gap <= |chain| && chain[0] == header && level <= header.level
      ensures forall i | 0 <= i <= level :: update[i] == chain[Prev(chain, gap, i)]
    {
      hide Built, Linked, Splits;
      SearchFacts(key, gap);
      update := new Node?[maxLevel + 1](_ => null);
      var current := header;
      ghost var p := 0;
      var i: int := level;
      while i >= 0
        invariant Searchable(key, gap)
        invariant -1 <= i <= level && 0 <= p < gap && chain[p] == current
        invariant i <= current.level
        invariant forall j | i < j <= level :: update[j] == chain[Prev(chain, gap, j)]
      {
        current, p := WalkRight(current, p, i, key, gap);
        update[i] := current;
        i := i - 1;
      }
    }

    // ----- insertion -----------------------------------------------------------------------

    /** n is linked in on the levels below i. */
    ghost predicate LinkedBelow(gap: int, n: Node, i: int)
      requires Built(chain) && 0 < gap <= |chain| && 0 <= i <= n.level + 1 == n.forward.Length
      reads this, Arrays(), n.forward
    {
      && (forall p, j | 0 <= p < |chain| && 0 <= j <= chain[p].level :: chain[p].forward[j] == Linking(chain, gap, n, i, p, j))
      && (forall j | 0 <= j < i :: n.forward[j] == At(With(chain, gap, n), Next(With(chain, gap, n), gap, j)))
    }

    /** n can be linked into the gap. */
    ghost predicate Linkable(gap: int, n: Node)
      reads this
    {
      && Built(chain) && 0 < gap <= |chain|
      && n.forward.Length == n.level + 1 && 1 <= n.level <= chain[0].level
      && forall p | 0 <= p < |chain| :: chain[p].forward != n.forward
    }

    lemma OwnArray(p: int)
      requires Built(chain) && 0 <= p < |chain|
      ensures forall q | 0 <= q < |chain| && q != p :: chain[q].forward != chain[p].forward
      ensures forall q | 0 <= q < |chain| :: chain[q].forward.Length == chain[q].level + 1
    {
    }

    method LinkOne(pred: Node, n: Node, i: nat, ghost gap: int)
      requires Linkable(gap, n) && i <= n.level && LinkedBelow(gap, n, i)
      requires pred == chain[Prev(chain, gap, i)]
      modifies pred.forward, n.forward
      ensures LinkedBelow(gap, n, i + 1)
    {
      hide Linking, With, Next, Prev, At;
      forall p, j | 0 <= p < |chain| && 0 <= j <= chain[p].level
        ensures Linking(chain, gap, n, i + 1, p, j) == if j == i && p == Prev(chain, gap, i) then n else Linking(chain, gap, n, i, p, j)
      {
        LinkingStep(chain, gap, n, i, p, j);
      }
      NextOfNew(chain, gap, n, i);
      LinkingAhead(chain, gap, n, i);
      OwnArray(Prev(chain, gap, i));
      hide Built;
      n.forward[i] := pred.forward[i];
      pred.forward[i] := n;
    }

    /** Links a node into the gap on every level up to its own. */
    method LinkIn(update: array<Node?>, n: Node, ghost gap: int)
      requires Linkable(gap, n) && Linked(chain)
      requires forall p | 0 <= p < |chain| :: chain[p].forward != update
      requires update != n.forward && update.Length > n.level
      requires forall i | 0 <= i <= n.level :: update[i] == chain[Prev(chain, gap, i)]
      modifies Arrays(), n.forward
      ensures Built(With(chain, gap, n)) && Linked(With(chain, gap, n))
    {
      BuiltWith(chain, gap, n);
      hide Built, With, Linking;
      StartsLinking(gap, n);
      var i := 0;
      while i <= n.level
        invariant 0 <= i <= n.level + 1
        invariant forall j | 0 <= j <= n.level :: update[j] == chain[Prev(chain, gap, j)]
        invariant LinkedBelow(gap, n, i)
      {
        LinkOne(update[i], n, i, gap);
        i := i + 1;
      }
      EndsLinked(gap, n);
    }

    lemma StartsLinking(gap: int, n: Node)
      requires Linkable(gap, n) && Linked(chain)
      ensures LinkedBelow(gap, n, 0)
    {
    }

    lemma EndsAt(gap: int, n: Node, p: int, j: int)
      requires Linkable(gap, n) && LinkedBelow(gap, n, n.level + 1) && 0 <= p < |chain| && 0 <= j <= chain[p].level
      ensures j < chain[p].forward.Length
      ensures chain[p].forward[j] == At(With(chain, gap, n), Next(With(chain, gap, n), Shift(p, gap), j))
    {
      hide Linking, With;
      LinkingDone(chain, gap, n, p, j);
    }

    lemma EndsAtNew(gap: int, n: Node, j: int)
      requires Linkable(gap, n) && LinkedBelow(gap, n, n.level + 1) && 0 <= j <= n.level
      ensures n.forward[j] == At(With(chain, gap, n), Next(With(chain, gap, n), gap, j))
    {
      hide Linking, With;
    }

    lemma EndsAtAny(gap: int, n: Node, p: int, j: int)
      requires Linkable(gap, n) && LinkedBelow(gap, n, n.level + 1)
      requires 0 <= p < |With(chain, gap, n)| && 0 <= j <= With(chain, gap, n)[p].level
      requires j < With(chain, gap, n)[p].forward.Length
      ensures With(chain, gap, n)[p].forward[j] == At(With(chain, gap, n), Next(With(chain, gap, n), p, j))
    {
      LinkableGap(gap, n);
      WithAt(chain, gap, n);
      hide With, LinkedBelow, Linkable;
      if p == gap {
        EndsAtNew(gap, n, j);
      } else {
        var was := if p < gap then p else p - 1;
        assert With(chain, gap, n)[Shift(was, gap)] == chain[was];
        EndsAt(gap, n, was, j);
      }
    }

    lemma LinkableGap(gap: int, n: Node)
      requires Linkable(gap, n)
      ensures 0 < gap <= |chain|
    {
    }

    lemma EndsLinked(gap: int, n: Node)
      requires Linkable(gap, n) && LinkedBelow(gap, n, n.level + 1) && Built(With(chain, gap, n))
      ensures Linked(With(chain, gap, n))
    {
      hide With, LinkedBelow, Linkable;
      LinkableGap(gap, n);
      var chain' := With(chain, gap, n);
      forall p, j | 0 <= p < |chain'| && 0 <= j <= chain'[p].level ensures chain'[p].forward[j] == At(chain', Next(chain', p, j)) {
        EndsAtAny(gap, n, p, j);
      }
    }

    lemma FirstStep(gap: int)
      requires Built(chain) && Linked(chain) && 0 < gap <= |chain|
      ensures chain[gap - 1].forward.Length > 0 && chain[gap - 1].forward[0] == At(chain, Next(chain, gap - 1, 0))
    {
    }

    /** Adds the key if it is absent; 1 says it was there already. */
    method InsertElement(key: int, value: string) returns (r: int)
      requires Valid()
      modifies this, Arrays()
      ensures Valid() && fresh(Arrays() - old(Arrays()))
      ensures r == if key in old(Model()) then 1 else 0
      ensures Model() == if key in old(Model()) then old(Model()) else old(Model())[key := value]
    {
      hide Built, Linked, Contents, Topped, Sorted, Splits;
      ValidParts();
      ghost var gap := FindGap(key);
      var update := FillUpdate(key, gap);
      KeyAtGap(chain, gap, key);
      SearchFacts(key, gap);
      GapKey(chain, gap, key);
      FirstStep(gap);
      assert update[0] == chain[Prev(chain, gap, 0)];
      var current := update[0].forward[0];
      if current != null && current.key == key {
        return 1;
      }
      InsertNew(key, value, update, gap);
      r := 0;
    }

    /** The second half of an insertion: a random level, a new node, and its links. */
    method InsertNew(key: int, value: string, update: array<Node?>, ghost gap: int)
      requires Valid() && Splits(chain, gap, key) && key !in Model()
      requires update.Length == maxLevel + 1 && forall p | 0 <= p < |chain| :: chain[p].forward != update
      requires forall i | 0 <= i <= level :: update[i] == chain[Prev(chain, gap, i)]
      modifies this, Arrays(), update
      ensures Valid() && fresh(Arrays() - old(Arrays()))
      ensures Model() == old(Model())[key := value]
    {
      hide Built, Linked, Contents, Sorted, Topped, Splits, With;
      ValidParts();
      GapInside(chain, gap, key);
      KeyAtGap(chain, gap, key);
      var randomLevel := GetRandomLevel();
      RaiseLevel(update, randomLevel, gap);
      var n := new Node(key, value, randomLevel);
      ToppedWith(chain, gap, n, old(level));
      LinkIn(update, n, gap);
      SortedWith(chain, gap, n);
      ContentsWith(chain, gap, n);
      WithAt(chain, gap, n);
      WithHead(chain, gap, n);
      ArraysWith(chain, gap, n);
      chain := With(chain, gap, n);
      elementCount := elementCount + 1;
    }

    lemma ValidParts()
      requires Valid()
      ensures Built(chain) && Linked(chain) && Sorted(chain) && Topped(chain, level)
      ensures |chain| > 0 && chain[0] == header && header.level == maxLevel >= 1 && level <= maxLevel
      ensures forall p | 1 <= p < |chain| :: chain[p].level <= level
    {
    }

    /** New levels start at the header. */
    method RaiseLevel(update: array<Node?>, randomLevel: nat, ghost gap: int)
      requires 0 < gap <= |chain| && chain[0] == header && 1 <= randomLevel <= maxLevel == header.level && update.Length == maxLevel + 1
      requires forall p | 1 <= p < |chain| :: chain[p].level <= level
      requires forall i | 0 <= i <= level && i <= maxLevel :: update[i] == chain[Prev(chain, gap, i)]
      modifies this`level, update
      ensures level == if randomLevel > old(level) then randomLevel else old(level)
      ensures forall i | 0 <= i <= level && i <= maxLevel :: update[i] == chain[Prev(chain, gap, i)]
    {
      if randomLevel > level {
        for i := level + 1 to randomLevel + 1
          invariant forall j | 0 <= j < i && j <= maxLevel :: update[j] == chain[Prev(chain, gap, j)]
        {
          update[i] := header;
          assert Prev(chain, gap, i) == 0;
        }
        level := randomLevel;
      }
    }

    // ----- deletion ------------------------------------------------------------------------

    /** The node after the gap is unlinked on the levels below i. */
    ghost predicate UnlinkedBelow(short: Chain, gap: int, n: Node, i: int)
      requires Built(short) && 0 < gap <= |short|
      reads ArraysOf(short)
    {
      forall p, j | 0 <= p < |short| && 0 <= j <= short[p].level :: short[p].forward[j] == Unlinking(short, gap, n, i, p, j)
    }

    /** `short` is the chain without its node n. */
    ghost predicate Unlinkable(short: Chain, gap: int, n: Node)
      reads this
    {
      && Built(chain) && Built(short) && 0 < gap <= |short| && chain == With(short, gap, n)
      && 1 <= n.level <= short[0].level && n.forward.Length == n.level + 1
      && forall p | 0 <= p < |short| :: short[p] != n && short[p].forward != n.forward
    }

    lemma UnlinkableGap(short: Chain, gap: int, n: Node)
      requires Unlinkable(short, gap, n)
      ensures 0 < gap <= |short| && Built(short) && chain == With(short, gap, n) && n.level <= short[0].level && n.forward.Length == n.level + 1
      ensures forall p | 0 <= p < |short| :: short[p] != n
    {
    }

    method UnlinkOne(pred: Node, n: Node, i: nat, ghost short: Chain, ghost gap: int)
      requires Unlinkable(short, gap, n) && i <= n.level && UnlinkedBelow(short, gap, n, i)
      requires pred == short[Prev(short, gap, i)]
      requires forall j | 0 <= j <= n.level :: n.forward[j] == At(chain, Next(chain, gap, j))
      modifies pred.forward
      ensures UnlinkedBelow(short, gap, n, i + 1)
      ensures forall j | 0 <= j <= n.level :: n.forward[j] == At(chain, Next(chain, gap, j))
    {
      hide Unlinking, With, Next, Prev, At;
      WithAt(short, gap, n);
      forall p, j | 0 <= p < |short| && 0 <= j <= short[p].level
        ensures Unlinking(short, gap, n, i + 1, p, j) ==
          if j == i && p == Prev(short, gap, i) then At(chain, Next(chain, gap, i)) else Unlinking(short, gap, n, i, p, j)
      {
        UnlinkingStep(short, gap, n, i, p, j);
      }
      pred.forward[i] := n.forward[i];
    }

    lemma LeadsTo(short: Chain, gap: int, n: Node, i: int)
      requires Unlinkable(short, gap, n) && UnlinkedBelow(short, gap, n, i) && 0 <= i <= short[0].level
      ensures Prev(chain, gap, i) == Prev(short, gap, i) && chain[Prev(chain, gap, i)] == short[Prev(short, gap, i)]
      ensures i < short[Prev(short, gap, i)].forward.Length
      ensures short[Prev(short, gap, i)].forward[i] == n <==> i <= n.level
    {
      LeadsToNew(short, gap, n, i);
      WithAt(short, gap, n);
      hide Unlinking, With;
      assert chain[Shift(Prev(short, gap, i), gap)] == short[Prev(short, gap, i)];
    }

    lemma StartsUnlinking(short: Chain, gap: int, n: Node)
      requires Unlinkable(short, gap, n) && Linked(chain)
      ensures UnlinkedBelow(short, gap, n, 0)
      ensures forall j | 0 <= j <= n.level :: n.forward[j] == At(chain, Next(chain, gap, j))
    {
      WithAt(short, gap, n);
      hide With;
      forall p, j | 0 <= p < |short| && 0 <= j <= short[p].level ensures short[p].forward[j] == Unlinking(short, gap, n, 0, p, j) {
        assert chain[Shift(p, gap)] == short[p];
      }
    }

    lemma EndsUnlinked(short: Chain, gap: int, n: Node, i: int)
      requires Unlinkable(short, gap, n) && UnlinkedBelow(short, gap, n, i) && i > n.level
      ensures Built(short) && Linked(short)
    {
      hide Unlinking, With;
      forall p, j | 0 <= p < |short| && 0 <= j <= short[p].level ensures short[p].forward[j] == At(short, Next(short, p, j)) {
        UnlinkingDone(short, gap, n, i, p, j);
      }
    }

    /** Unlinks a node from every level it is on. */
    method UnlinkAll(update: array<Node?>, current: Node, ghost short: Chain, ghost gap: int)
      requires Unlinkable(short, gap, current) && Linked(chain) && current.level <= level <= maxLevel == short[0].level
      requires forall p | 0 <= p < |chain| :: chain[p].forward != update
      requires update.Length == maxLevel + 1
      requires forall i | 0 <= i <= level :: update[i] == chain[Prev(chain, gap, i)]
      modifies ArraysOf(short)
      ensures Built(short) && Linked(short)
    {
      UnlinkableGap(short, gap, current);
      StartsUnlinking(short, gap, current);
      ArraysWith(short, gap, current);
      hide Unlinkable, UnlinkedBelow, Built, Linked, With, Unlinking;
      var i := 0;
      while i <= level
        invariant 0 <= i <= level + 1 && i <= current.level + 1
        invariant UnlinkedBelow(short, gap, current, i)
        invariant forall j | 0 <= j <= level :: update[j] == chain[Prev(chain, gap, j)]
        invariant forall j | 0 <= j <= current.level :: current.forward[j] == At(chain, Next(chain, gap, j))
      {
        LeadsTo(short, gap, current, i);
        if update[i].forward[i] != current {
          break;
        }
        UnlinkOne(update[i], current, i, short, gap);
        i := i + 1;
      }
      EndsUnlinked(short, gap, current, i);
    }

    lemma ShortIsUnlinkable(gap: int)
      requires Built(chain) && Sorted(chain) && 0 < gap < |chain|
      ensures Unlinkable(Without(chain, gap), gap, chain[gap])
      ensures Arrays() == ArraysOf(Without(chain, gap)) + {chain[gap].forward}
    {
      WithoutWith(chain, gap);
      BuiltWithout(chain, gap);
      var short := Without(chain, gap);
      ArraysWith(short, gap, chain[gap]);
      forall p | 0 <= p < |short| ensures short[p] != chain[gap] && short[p].forward != chain[gap].forward {
        assert short[p] == chain[Shift(p, gap)];
      }
    }

    /** Levels without elements are given up. */
    method LowerLevel()
      requires Built(chain) && chain[0] == header && level <= maxLevel == header.level && Linked(chain)
      requires forall p | 1 <= p < |chain| :: chain[p].level <= level
      modifies this`level
      ensures level <= old(level) && Topped(chain, level)
    {
      while level > 0 && header.forward[level] == null
        invariant 0 <= level <= old(level)
        invariant forall p | 1 <= p < |chain| :: chain[p].level <= level
      {
        assert Next(chain, 0, level) == |chain|;
        level := level - 1;
      }
      assert level > 0 ==> chain[Next(chain, 0, level)].level == level;
    }

    /** Removes the key, if it is there. */
    method DeleteElement(key: int)
      requires Valid()
      modifies this, Arrays()
      ensures Valid() && Arrays() <= old(Arrays())
      ensures Model() == old(Model()) - {key}
    {
      hide Built, Linked, Contents, Topped, Sorted, Splits;
      ValidParts();
      ghost var gap := FindGap(key);
      var update := FillUpdate(key, gap);
      KeyAtGap(chain, gap, key);
      SearchFacts(key, gap);
      GapKey(chain, gap, key);
      FirstStep(gap);
      assert update[0] == chain[Prev(chain, gap, 0)];
      var current := update[0].forward[0];
      if current != null && current.key == key {
        DeleteAt(update, current, gap);
      }
    }

    method DeleteAt(update: array<Node?>, current: Node, ghost gap: int)
      requires Valid() && 0 < gap < |chain| && chain[gap] == current
      requires forall p | 0 <= p < |chain| :: chain[p].forward != update
      requires update.Length == maxLevel + 1
      requires forall i | 0 <= i <= level :: update[i] == chain[Prev(chain, gap, i)]
      modifies this, Arrays()
      ensures Valid() && Arrays() <= old(Arrays())
      ensures Model() == old(Model()) - {current.key}
    {
      hide Built, Linked, Contents, Sorted, Topped, With, Without, Unlinkable;
      ValidParts();
      ShortIsUnlinkable(gap);
      ghost var short := Without(chain, gap);
      ContentsWithout(chain, gap);
      WithoutFacts(chain, gap);
      UnlinkAll(update, current, short, gap);
      chain := short;
      LowerLevel();
      elementCount := elementCount - 1;
    }

    // ----- update, dump and load -----------------------------------------------------------

    /** Sets the key's value: an old element is deleted first. */
    method InsertSetElement(key: int, value: string)
      requires Valid()
      modifies this, Arrays()
      ensures Valid() && fresh(Arrays() - old(Arrays()))
      ensures Model() == old(Model())[key := value]
    {
      hide Built, Linked, Contents, Topped, Sorted;
      var found, oldValue := SearchElement(key);
      if found {
        DeleteElement(key);
      }
      var r := InsertElement(key, value);
    }

    method Size() returns (n: int)
      requires Valid()
      ensures n == |Model()|
    {
      ContentsSize(chain);
      n := elementCount;
    }

    /** The walk of one level, as `display_list` makes it. */
    method LevelItems(i: nat) returns (items: seq<(int, string)>)
      requires Valid() && i <= maxLevel
      ensures items == Items(Level(chain, 1, i))
    {
      items := [];
      ghost var p := 0;
      LevelStep(chain, 0, i);
      var node := header.forward[i];
      p := Next(chain, 0, i);
      while node != null
        invariant 1 <= p <= |chain| && node == At(chain, p) && (p < |chain| ==> chain[p].level >= i)
        invariant items + Items(Level(chain, p, i)) == Items(Level(chain, 1, i))
        decreases |chain| - p
      {
        LevelStep(chain, p, i);
        ItemsFirst(chain[p], Level(chain, p + 1, i));
        items := items + [(node.key, node.value)];
        node := node.forward[i];
        p := Next(chain, p, i);
      }
    }

    /** `display_list`: every level, from 0 to the current one. */
    method DisplayList() returns (lines: seq<seq<(int, string)>>)
      requires Valid()
      ensures |lines| == level + 1
      ensures forall i | 0 <= i <= level :: lines[i] == Items(Level(chain, 1, i))
    {
      lines := [];
      for i := 0 to level + 1
        invariant |lines| == i && forall j | 0 <= j < i :: lines[j] == Items(Level(chain, 1, j))
      {
        var items := LevelItems(i);
        lines := lines + [items];
      }
    }

    lemma ZeroSteps()
      requires Valid()
      ensures |chain| > 0 && chain[0] == header && Sorted(chain) && elementCount == |chain| - 1
      ensures forall p | 0 <= p < |chain| :: chain[p].forward.Length > 0 && chain[p].forward[0] == At(chain, p + 1)
    {
    }

    /** `dump_file`: keys and values in key order. */
    method Dump() returns (keys: seq<int>, values: seq<string>)
      requires Valid()
      ensures |keys| == |values| == |Model()|
      ensures forall a, b | 0 <= a < b < |keys| :: keys[a] < keys[b]
      ensures forall a | 0 <= a < |keys| :: keys[a] in Model() && Model()[keys[a]] == values[a]
    {
      hide Valid, Contents, Sorted, Next, Prev, Built, Linked, Topped;
      ZeroSteps();
      ContentsSize(chain);
      keys, values := [], [];
      ghost var p := 1;
      var node := header.forward[0];
      while node != null
        invariant 1 <= p <= |chain| && node == At(chain, p)
        invariant |keys| == |values| == p - 1
        invariant forall a | 0 <= a < p - 1 :: keys[a] == chain[a + 1].key && values[a] == chain[a + 1].value
        decreases |chain| - p
      {
        keys, values := keys + [node.key], values + [node.value];
        node := node.forward[0];
        p := p + 1;
      }
      forall a | 0 <= a < |keys| ensures keys[a] in Model() && Model()[keys[a]] == values[a] {
        ContentsValue(chain, a + 1);
      }
    }

    /** `load_file`: each key of the dump is inserted with itself, as text, for a value. */
    method Load(keys: seq<int>, asText: int -> string)
      requires Valid()
      modifies this, Arrays()
      ensures Valid() && fresh(Arrays() - old(Arrays()))
      ensures Model() == Loaded(old(Model()), keys, asText)
    {
      for i := 0 to |keys|
        invariant Valid() && fresh(Arrays() - old(Arrays()))
        invariant Model() == Loaded(old(Model()), keys[..i], asText)
      {
        assert keys[..i + 1][..i] == keys[..i] && keys[..i + 1][i] == keys[i];
        var r := InsertElement(keys[i], asText(keys[i]));
      }
      assert keys[..|keys|] == keys;
    }
  }

  function Items(nodes: seq<Node>): seq<(int, string)> {
    if nodes == [] then [] else [(nodes[0].key, nodes[0].value)] + Items(nodes[1..])
  }

  /** What is printed for a level is each node's key and value, in order. */
  lemma {:induction false} ItemsAt(nodes: seq<Node>, a: int)
    requires 0 <= a < |nodes|
    ensures |Items(nodes)| == |nodes| && Items(nodes)[a] == (nodes[a].key, nodes[a].value)
    decreases |nodes|
  {
    if |nodes| == 1 {
      assert Items(nodes[1..]) == [];
    } else {
      ItemsAt(nodes[1..], if a > 0 then a - 1 else 0);
    }
  }

  lemma ItemsFirst(n: Node, rest: seq<Node>)
    ensures Items([n] + rest) == [(n.key, n.value)] + Items(rest)
  {
    assert ([n] + rest)[1..] == rest;
  }

  /** A map after a dump's keys are loaded into it. */
  function Loaded(m: map<int, string>, keys: seq<int>, asText: int -> string): map<int, string> {
    if keys == [] then m
    else
      var before, key := Loaded(m, keys[..|keys| - 1], asText), keys[|keys| - 1];
      if key in before then before else before[key := asText(key)]
  }

  /** Loading adds exactly the keys that are missing, each with itself for a value, and touches no other. */
  lemma {:induction false} LoadedAt(m: map<int, string>, keys: seq<int>, asText: int -> string, k: int)
    ensures var after := Loaded(m, keys, asText);
      && (k in after <==> k in m || k in keys)
      && (k in after ==> after[k] == if k in m then m[k] else asText(k))
    decreases |keys|
  {
    if keys != [] {
      var n := |keys| - 1;
      LoadedAt(m, keys[..n], asText, k);
      assert keys == keys[..n] + [keys[n]];
    }
  }

  /** Loading a dump into an empty list restores the keys and the number of elements, but not the values. */
  lemma {:induction false} LoadRestoresKeys(keys: seq<int>, asText: int -> string)
    requires forall a, b | 0 <= a < b < |keys| :: keys[a] < keys[b]
    ensures var m := Loaded(map[], keys, asText);
      && |m| == |keys| && (forall k :: k in m <==> k in keys) && forall k | k in m :: m[k] == asText(k)
    decreases |keys|
  {
    if keys != [] {
      var short, key := keys[..|keys| - 1], keys[|keys| - 1];
      LoadRestoresKeys(short, asText);
      assert keys == short + [key];
      assert key !in short;
    }
  }
}
