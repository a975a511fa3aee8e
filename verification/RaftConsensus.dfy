/**
  The consensus argument for clean runs (sections 5.3 and 5.4 of Ongaro and Ousterhout, extended
  version): Log Matching, Leader Completeness and agreement of committed prefixes.

  `Steady` is what a clean run keeps.  Leader Completeness is not one of its conjuncts: it follows
  from them by induction on the term (`LeaderCompleteness`).
*/
module RaftConsensus {
  import opened RaftLog
  import opened RaftHistory

  /** Every entry stands on the very prefix it stood on in the log of its own reign. */
  ghost predicate Matched(h: History, log: Log) {
    forall i | 0 <= i < |log| :: log[i].term in h.reign && Agree(log, h.reign[log[i].term].log, i)
  }

  /** Some reign after t, up to `upTo`, lacks the first i+1 entries of the reign t. */
  ghost predicate Displaced(h: History, t: int, i: int, upTo: int)
    requires t in h.reign
  {
    exists t' | t < t' <= upTo && t' in h.reign :: !Agree(h.reign[t'].log, h.reign[t].log, i)
  }

  ghost predicate AllMatched(h: History) {
    && (forall v | 0 <= v < |h.log| :: Matched(h, h.log[v]))
    && (forall k | k in h.candidacy :: Matched(h, h.candidacy[k]))
    && (forall k | k in h.vote :: Matched(h, h.vote[k].log))
    && (forall t | t in h.reign :: Matched(h, h.reign[t].log))
  }

  /** What a server acknowledged it still holds, unless a later reign displaced it. */
  ghost predicate Retained(h: History, a: Ack)
    requires Sized(h) && GoodAck(h, a)
  {
    || Agree(h.log[a.server], h.reign[a.term].log, a.index)
    || Displaced(h, a.term, a.index, h.term[a.server])
  }

  /** The vote k can (or did) elect the leader of its term. */
  ghost predicate Counts(h: History, k: (int, int)) {
    k.1 !in h.reign || k.0 in h.reign[k.1].electors
  }

  /** What a server acknowledged it still held when it voted in a later term. */
  ghost predicate HeldAtVote(h: History, a: Ack, k: (int, int))
    requires a.term in h.reign && k in h.vote
  {
    a.server == k.0 && a.term < k.1 && Counts(h, k) ==>
      || Agree(h.vote[k].log, h.reign[a.term].log, a.index)
      || Displaced(h, a.term, a.index, k.1 - 1)
  }

  function Ackers(h: History, t: int, i: int): set<int> {
    set a | a in h.acks && a.term == t && a.index == i :: a.server
  }

  /** A majority acknowledged the entry i of the reign t, an entry of that very term. */
  ghost predicate Chosen(h: History, t: int, i: int) {
    && t in h.reign
    && 0 <= i < |h.reign[t].log|
    && h.reign[t].log[i].term == t
    && Majority(|h.log|, Ackers(h, t, i))
  }

  ghost predicate PrefixOfChosen(h: History, p: Log, t: int, i: int) {
    && Chosen(h, t, i)
    && 0 < |p| <= i + 1
    && Agree(p, h.reign[t].log, |p| - 1)
  }

  /** p is a prefix of a log chosen no later than term `upTo`. */
  ghost predicate Committed(h: History, p: Log, upTo: int) {
    exists t, i :: t <= upTo && PrefixOfChosen(h, p, t, i)
  }

  /**
    A server that stood in a term nobody leads yet still has the log it stood with, or has
    installed a committed prefix at least as long.
  */
  ghost predicate Standing(h: History, k: (int, int))
    requires Sized(h) && k in h.candidacy && GoodCandidacy(h, k)
  {
    h.term[k.0] == k.1 && k.1 !in h.reign ==>
      || h.log[k.0] == h.candidacy[k]
      || (|h.log[k.0]| >= |h.candidacy[k]| && Committed(h, h.log[k.0], k.1))
  }

  /** A leader's log starts with the log it stood with. */
  ghost predicate Extends(h: History, t: int)
    requires t in h.reign
  {
    var k := (h.reign[t].leader, t);
    && k in h.candidacy
    && |h.candidacy[k]| <= |h.reign[t].log|
    && forall j | 0 <= j < |h.candidacy[k]| :: h.reign[t].log[j] == h.candidacy[k][j]
  }

  ghost predicate AllRetained(h: History)
    requires Sized(h)
  {
    forall a | a in h.acks :: GoodAck(h, a) && Retained(h, a)
  }

  ghost predicate AllHeldAtVote(h: History)
    requires Sized(h)
  {
    forall a, k | a in h.acks && k in h.vote :: a.term in h.reign && HeldAtVote(h, a, k)
  }

  ghost predicate AllStanding(h: History)
    requires Sized(h)
  {
    forall k | k in h.candidacy :: GoodCandidacy(h, k) && Standing(h, k)
  }

  ghost predicate AllExtend(h: History) {
    forall t | t in h.reign && t > 0 :: Extends(h, t)
  }

  ghost predicate Steady(h: History) {
    Sound(h) && AllMatched(h) && AllRetained(h) && AllHeldAtVote(h) && AllStanding(h) && AllExtend(h)
  }

  // ----- consequences ----------------------------------------------------------------------

  lemma MatchedTerms(h: History, log: Log, i: int, j: int)
    requires Sound(h) && Matched(h, log)
    requires 0 <= i <= j < |log|
    ensures log[i].term <= log[j].term
  {
    var t := log[j].term;
    assert GoodReign(h, t);
    assert Agree(log, h.reign[t].log, j);
    assert log[i] == h.reign[t].log[i];
  }

  /** Two matched logs with the same term at an index agree up to that index. */
  lemma LogMatching(h: History, a: Log, b: Log, i: int)
    requires Matched(h, a) && Matched(h, b)
    requires 0 <= i < |a| && i < |b| && a[i].term == b[i].term
    ensures Agree(a, b, i)
  {
    assert Agree(a, h.reign[a[i].term].log, i) && Agree(b, h.reign[a[i].term].log, i);
  }

  /** A log at least as up to date as one that holds a chosen prefix holds it too. */
  lemma UpToDateHolds(h: History, mine: Log, theirs: Log, t: int, i: int)
    requires Sound(h) && Matched(h, mine) && Matched(h, theirs)
    requires |mine| > 0 && |theirs| > 0 && UpToDate(mine, theirs)
    requires t in h.reign && 0 <= i < |h.reign[t].log| && h.reign[t].log[i].term == t
    requires Agree(theirs, h.reign[t].log, i)
    requires LastTermOf(mine) > t ==> LastTermOf(mine) in h.reign && Agree(h.reign[LastTermOf(mine)].log, h.reign[t].log, i)
    ensures Agree(mine, h.reign[t].log, i)
  {
    var m, n := LastTermOf(mine), LastTermOf(theirs);
    assert theirs[i].term == t;
    MatchedTerms(h, theirs, i, |theirs| - 1);
    assert Agree(mine, h.reign[m].log, |mine| - 1);
    assert Agree(theirs, h.reign[n].log, |theirs| - 1) && GoodReign(h, t);
    if m > n {
      Overtakes(h.reign[m].log, h.reign[t].log, |mine| - 1, t, i);
    }
  }

  /** An entry of a later term stands beyond every index where the log agrees with an earlier reign's. */
  lemma Overtakes(a: Log, b: Log, x: int, t: int, i: int)
    requires Agree(a, b, i) && TermsUpTo(b, t) && 0 <= x < |a| && a[x].term > t
    ensures x > i
  {
  }

  /** A server that acknowledged a chosen entry and elected a later leader voted for a log at least as up to date. */
  lemma WitnessVote(h: History, t: int, i: int, c: int, t': int, electors: set<int>, v: int)
    requires Steady(h) && Chosen(h, t, i) && t < t'
    requires (c, t') in h.candidacy && ElectedBy(h, c, t', electors)
    requires t' in h.reign ==> h.reign[t'].electors == electors
    requires v in electors && v in Ackers(h, t, i)
    ensures (v, t') in h.vote
    ensures var mine, theirs := h.candidacy[(c, t')], h.vote[(v, t')].log;
      && Matched(h, mine) && Matched(h, theirs) && |mine| > 0 && |theirs| > 0 && UpToDate(mine, theirs)
      && LastTermOf(mine) < t'
      && (Agree(theirs, h.reign[t].log, i) || Displaced(h, t, i, t' - 1))
  {
    var a, k := Ack(v, t, i), (v, t');
    assert a in h.acks && k in h.vote && HeldAtVote(h, a, k);
    assert GoodVote(h, k) && GoodCandidacy(h, (c, t'));
  }

  /** Whoever a majority elects stood with every chosen prefix of an earlier term. */
  lemma CandidacyComplete(h: History, t: int, i: int, c: int, t': int, electors: set<int>)
    requires Steady(h) && Chosen(h, t, i) && t < t'
    requires (c, t') in h.candidacy && ElectedBy(h, c, t', electors)
    requires t' in h.reign ==> h.reign[t'].electors == electors
    ensures Agree(h.candidacy[(c, t')], h.reign[t].log, i)
    decreases t', 0
  {
    assert t >= 0 && Sound(h) by {
      assert GoodReign(h, t);
    }
    var v := MajoritiesMeet(|h.log|, Ackers(h, t, i), electors);
    WitnessVote(h, t, i, c, t', electors, v);
    var mine, theirs := h.candidacy[(c, t')], h.vote[(v, t')].log;
    hide Steady, Sound, Matched, Agree, ElectedBy;
    if Displaced(h, t, i, t' - 1) {
      var r :| t < r <= t' - 1 && r in h.reign && !Agree(h.reign[r].log, h.reign[t].log, i);
      LeaderCompleteness(h, t, i, r);
      assert false;
    }
    LastReigned(h, mine);
    if LastTermOf(mine) > t {
      LeaderCompleteness(h, t, i, LastTermOf(mine));
    }
    UpToDateHolds(h, mine, theirs, t, i);
  }

  lemma LastReigned(h: History, log: Log)
    requires Matched(h, log) && |log| > 0
    ensures LastTermOf(log) in h.reign && Agree(log, h.reign[LastTermOf(log)].log, |log| - 1)
  {
  }

  /** Leader Completeness: what was chosen in a term is in the log of every later reign. */
  lemma LeaderCompleteness(h: History, t: int, i: int, t': int)
    requires Steady(h) && Chosen(h, t, i) && t < t' && t' in h.reign
    ensures Agree(h.reign[t'].log, h.reign[t].log, i)
    ensures 0 <= i && (h.reign[t'].leader, t') in h.candidacy && Agree(h.candidacy[(h.reign[t'].leader, t')], h.reign[t].log, i)
    decreases t', 1
  {
    var r := h.reign[t'];
    assert GoodReign(h, t) && GoodReign(h, t');
    assert Extends(h, t');
    hide Steady, GoodReign, Chosen;
    CandidacyComplete(h, t, i, r.leader, t', r.electors);
  }

  /** What is committed by a term is at the head of the log of any reign from that term on. */
  lemma ChosenPrefixInReign(h: History, p: Log, t: int, i: int, t': int)
    requires Steady(h) && PrefixOfChosen(h, p, t, i) && t <= t' && t' in h.reign
    ensures Agree(p, h.reign[t'].log, |p| - 1)
  {
    if t < t' {
      LeaderCompleteness(h, t, i, t');
      hide Steady, Chosen;
      AgreeChain(p, h.reign[t].log, h.reign[t'].log, |p| - 1, i);
    }
  }

  /** Two committed prefixes never disagree where both reach. */
  lemma CommittedAgree(h: History, p: Log, q: Log, t: int, t': int, i: int)
    requires Steady(h) && Committed(h, p, t) && Committed(h, q, t')
    requires 0 <= i < |p| && i < |q|
    ensures p[i] == q[i]
  {
    var a, j :| a <= t && PrefixOfChosen(h, p, a, j);
    var b, k :| b <= t' && PrefixOfChosen(h, q, b, k);
    var later := if a <= b then b else a;
    ChosenPrefixInReign(h, p, a, j, later);
    ChosenPrefixInReign(h, q, b, k, later);
    hide Steady, Chosen, Committed;
    assert p[i] == h.reign[later].log[i] == q[i];
  }

  /** A reign at or after the term of a committed prefix starts with that prefix. */
  lemma CommittedInReign(h: History, p: Log, t: int)
    requires Steady(h) && Committed(h, p, t) && t in h.reign
    ensures |p| > 0 && Agree(p, h.reign[t].log, |p| - 1)
  {
    var a, j :| a <= t && PrefixOfChosen(h, p, a, j);
    ChosenPrefixInReign(h, p, a, j, t);
  }

  lemma CommittedWitness(h: History, p: Log, t: int) returns (a: int, j: int)
    requires Committed(h, p, t)
    ensures a <= t && PrefixOfChosen(h, p, a, j)
  {
    a, j :| a <= t && PrefixOfChosen(h, p, a, j);
  }

  lemma CommittedShorter(h: History, p: Log, q: Log, t: int)
    requires Committed(h, p, t) && 0 < |q| <= |p| && forall j | 0 <= j < |q| :: q[j] == p[j]
    ensures Committed(h, q, t)
  {
    var a, j :| a <= t && PrefixOfChosen(h, p, a, j);
    assert PrefixOfChosen(h, q, a, j);
  }

  lemma CommittedMatched(h: History, p: Log, t: int)
    requires Steady(h) && Committed(h, p, t)
    ensures Matched(h, p)
  {
    var a, j :| a <= t && PrefixOfChosen(h, p, a, j);
    var log := h.reign[a].log;
    assert Matched(h, log);
    forall i | 0 <= i < |p| ensures p[i].term in h.reign && Agree(p, h.reign[p[i].term].log, i) {
      assert p[i] == log[i];
      assert Agree(log, h.reign[log[i].term].log, i);
    }
  }

  // ----- what growth preserves -------------------------------------------------------------

  lemma AgreeGrows(h: History, h': History, log: Log, t: int, i: int)
    requires Grows(h, h') && t in h.reign && Agree(log, h.reign[t].log, i)
    ensures Agree(log, h'.reign[t].log, i)
  {
  }

  lemma MatchedGrows(h: History, h': History, log: Log)
    requires Grows(h, h') && Matched(h, log)
    ensures Matched(h', log)
  {
    forall i | 0 <= i < |log| ensures log[i].term in h'.reign && Agree(log, h'.reign[log[i].term].log, i) {
      AgreeGrows(h, h', log, log[i].term, i);
    }
  }

  lemma DisplacedGrows(h: History, h': History, t: int, i: int, upTo: int, upTo': int)
    requires Sound(h) && Grows(h, h') && upTo <= upTo'
    requires t in h.reign && 0 <= i < |h.reign[t].log| && Displaced(h, t, i, upTo)
    ensures Displaced(h', t, i, upTo')
  {
    var r :| t < r <= upTo && r in h.reign && !Agree(h.reign[r].log, h.reign[t].log, i);
    assert GoodReign(h, t) && ReignGrows(t, h.reign[t], h'.reign[t]) && ReignGrows(r, h.reign[r], h'.reign[r]);
    StillDisagree(r, h.reign[r].log, h'.reign[r].log, h.reign[t].log, h'.reign[t].log, i);
  }

  /** A log that lacks a prefix of an earlier reign never gains it by entries of its own term. */
  lemma StillDisagree(r: int, a: Log, a': Log, b: Log, b': Log, i: int)
    requires |a| <= |a'| && forall j | 0 <= j < |a| :: a'[j] == a[j]
    requires forall j | |a| <= j < |a'| :: a'[j].term == r
    requires |b| <= |b'| && forall j | 0 <= j < |b| :: b'[j] == b[j]
    requires 0 <= i < |b| && b[i].term < r
    requires !Agree(a, b, i)
    ensures !Agree(a', b', i)
  {
    assert b'[i] == b[i];
    if |a| > i {
      var j :| 0 <= j <= i && a[j] != b[j];
      assert a'[j] != b'[j];
    }
  }

  lemma ChosenGrows(h: History, h': History, t: int, i: int)
    requires Grows(h, h') && Chosen(h, t, i)
    requires Ackers(h', t, i) <= Servers(|h'.log|)
    ensures Chosen(h', t, i)
  {
    assert Ackers(h, t, i) <= Ackers(h', t, i);
    SubsetCount(Ackers(h, t, i), Ackers(h', t, i));
  }

  lemma CommittedGrows(h: History, h': History, p: Log, t: int, t': int)
    requires Sound(h') && Grows(h, h') && Committed(h, p, t) && t <= t'
    ensures Committed(h', p, t')
  {
    var a, j :| a <= t && PrefixOfChosen(h, p, a, j);
    assert Ackers(h', a, j) <= Servers(|h'.log|) by {
      forall s | s in Ackers(h', a, j) ensures s in Servers(|h'.log|) {
        assert GoodAck(h', Ack(s, a, j));
      }
    }
    ChosenGrows(h, h', a, j);
    AgreeGrows(h, h', p, a, |p| - 1);
    assert PrefixOfChosen(h', p, a, j);
  }

  lemma RetainedGrows(h: History, h': History, a: Ack)
    requires Sound(h) && Sound(h') && Grows(h, h')
    requires GoodAck(h, a) && GoodAck(h', a) && Retained(h, a)
    requires h'.log[a.server] == h.log[a.server]
    ensures Retained(h', a)
  {
    if Agree(h.log[a.server], h.reign[a.term].log, a.index) {
      AgreeGrows(h, h', h.log[a.server], a.term, a.index);
    } else {
      DisplacedGrows(h, h', a.term, a.index, h.term[a.server], h'.term[a.server]);
    }
  }

  lemma HeldAtVoteGrows(h: History, h': History, a: Ack, k: (int, int))
    requires Sound(h) && Grows(h, h') && GoodAck(h, a) && k in h.vote && HeldAtVote(h, a, k)
    ensures HeldAtVote(h', a, k)
  {
    if a.server == k.0 && a.term < k.1 && Counts(h', k) {
      assert Counts(h, k) by {
        assert k.1 in h.reign ==> ReignGrows(k.1, h.reign[k.1], h'.reign[k.1]);
      }
      if Agree(h.vote[k].log, h.reign[a.term].log, a.index) {
        AgreeGrows(h, h', h.vote[k].log, a.term, a.index);
      } else {
        DisplacedGrows(h, h', a.term, a.index, k.1 - 1, k.1 - 1);
      }
    }
  }

  lemma StandingGrows(h: History, h': History, k: (int, int))
    requires Sound(h') && Grows(h, h')
    requires Sized(h) && k in h.candidacy && GoodCandidacy(h, k) && GoodCandidacy(h', k) && Standing(h, k)
    requires h'.log[k.0] == h.log[k.0]
    ensures Standing(h', k)
  {
    if h.term[k.0] == k.1 && Committed(h, h.log[k.0], k.1) {
      CommittedGrows(h, h', h.log[k.0], k.1, k.1);
    }
  }

  ghost predicate SameLog(h: History, h': History, v: int) {
    0 <= v < |h.log| && v < |h'.log| && h'.log[v] == h.log[v]
  }

  lemma MatchedStays(h: History, h': History)
    requires AllMatched(h) && Grows(h, h')
    requires forall v | 0 <= v < |h.log| :: SameLog(h, h', v) || Matched(h', h'.log[v])
    requires forall k | k in h'.candidacy :: k in h.candidacy || Matched(h', h'.candidacy[k])
    requires forall k | k in h'.vote :: k in h.vote || Matched(h', h'.vote[k].log)
    requires forall t | t in h'.reign :: (t in h.reign && h'.reign[t] == h.reign[t]) || Matched(h', h'.reign[t].log)
    ensures AllMatched(h')
  {
    forall v | 0 <= v < |h.log| ensures Matched(h', h'.log[v]) {
      if SameLog(h, h', v) { MatchedGrows(h, h', h.log[v]); }
    }
    forall k | k in h'.candidacy ensures Matched(h', h'.candidacy[k]) {
      if k in h.candidacy { MatchedGrows(h, h', h.candidacy[k]); }
    }
    forall k | k in h'.vote ensures Matched(h', h'.vote[k].log) {
      if k in h.vote { MatchedGrows(h, h', h.vote[k].log); }
    }
    forall t | t in h'.reign ensures Matched(h', h'.reign[t].log) {
      if t in h.reign && h'.reign[t] == h.reign[t] { MatchedGrows(h, h', h.reign[t].log); }
    }
  }

  lemma RetainedStays(h: History, h': History)
    requires Sound(h) && AllRetained(h) && Sound(h') && Grows(h, h')
    requires forall a | a in h'.acks && GoodAck(h', a) :: (a in h.acks && SameLog(h, h', a.server)) || Retained(h', a)
    ensures AllRetained(h')
  {
    forall a | a in h'.acks ensures GoodAck(h', a) && Retained(h', a) {
      assert GoodAck(h', a);
      if a in h.acks && SameLog(h, h', a.server) {
        assert GoodAck(h, a);
        RetainedGrows(h, h', a);
      }
    }
  }

  lemma HeldAtVoteStays(h: History, h': History)
    requires Sound(h) && AllHeldAtVote(h) && Sized(h') && Grows(h, h')
    requires forall a, k | a in h'.acks && k in h'.vote && (a !in h.acks || k !in h.vote) ::
      a.term in h'.reign && HeldAtVote(h', a, k)
    ensures AllHeldAtVote(h')
  {
    forall a, k | a in h'.acks && k in h'.vote ensures a.term in h'.reign && HeldAtVote(h', a, k) {
      if a in h.acks && k in h.vote {
        assert GoodAck(h, a) && HeldAtVote(h, a, k);
        hide Sound, HeldAtVote, Sized;
        HeldAtVoteGrows(h, h', a, k);
      }
    }
  }

  lemma StandingStays(h: History, h': History)
    requires Sound(h) && AllStanding(h) && Sound(h') && Grows(h, h')
    requires forall k | k in h'.candidacy && GoodCandidacy(h', k) ::
      (k in h.candidacy && SameLog(h, h', k.0)) || Standing(h', k)
    ensures AllStanding(h')
  {
    forall k | k in h'.candidacy ensures GoodCandidacy(h', k) && Standing(h', k) {
      assert GoodCandidacy(h', k);
      if k in h.candidacy && SameLog(h, h', k.0) {
        assert GoodCandidacy(h, k) && Standing(h, k);
        StandingGrows(h, h', k);
      }
    }
  }

  lemma ExtendStays(h: History, h': History)
    requires AllExtend(h) && Grows(h, h')
    requires forall t | t in h'.reign && t > 0 && t !in h.reign :: Extends(h', t)
    ensures AllExtend(h')
  {
    forall t | t in h'.reign && t > 0 ensures Extends(h', t) {
      if t in h.reign {
        assert Extends(h, t) && ReignGrows(t, h.reign[t], h'.reign[t]);
      }
    }
  }
}
