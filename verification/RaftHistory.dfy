/**
  What a run of the cluster leaves behind, and the consensus argument over it.

  `History` records, per server, its term and whole log, and, for ever, every candidacy, every
  first vote, every reign (leader of a term, its log, its electors) and every acknowledgement.
  The operations below are the only ways a handler changes it.
*/
module RaftHistory {
  import opened RaftLog

  /** The first vote `voter` cast in a term, with the voter's log at that moment. */
  datatype Vote = Vote(candidate: int, log: Log)

  /** The reign of a term: who leads it, the leader's log, and the servers that elected it. */
  datatype Reign = Reign(leader: int, log: Log, electors: set<int>)

  /** `server` held the leader's entry `index` when it answered an AppendEntries of `term`. */
  datatype Ack = Ack(server: int, term: int, index: int)

  datatype History = History(
    term: seq<int>,
    log: seq<Log>,
    candidacy: map<(int, int), Log>,
    vote: map<(int, int), Vote>,
    reign: map<int, Reign>,
    acks: set<Ack>)

  function Origin(n: nat): History {
    History(
      seq(n, _ => 0), seq(n, _ => [ORIGIN]), map[], map[],
      map[0 := Reign(-1, [ORIGIN], {})],
      set v | 0 <= v < n :: Ack(v, 0, 0))
  }

  predicate Sized(h: History) {
    |h.term| == |h.log| > 0
  }

  // ----- operations ------------------------------------------------------------------------

  function Raise(h: History, v: int, t: int): History
    requires Sized(h) && 0 <= v < |h.log|
  {
    h.(term := h.term[v := t])
  }

  function Elect(h: History, c: int): History
    requires Sized(h) && 0 <= c < |h.log|
  {
    var t := h.term[c] + 1;
    h.(term := h.term[c := t],
       candidacy := h.candidacy[(c, t) := h.log[c]],
       vote := h.vote[(c, t) := Vote(c, h.log[c])])
  }

  function CastVote(h: History, v: int, c: int): History
    requires Sized(h) && 0 <= v < |h.log|
  {
    h.(vote := h.vote[(v, h.term[v]) := Vote(c, h.log[v])])
  }

  function Win(h: History, c: int, electors: set<int>): History
    requires Sized(h) && 0 <= c < |h.log|
  {
    h.(reign := h.reign[h.term[c] := Reign(c, h.log[c], electors)])
  }

  function Propose(h: History, c: int, command: string): History
    requires Sized(h) && 0 <= c < |h.log| && h.term[c] in h.reign
  {
    var t := h.term[c];
    var log := h.log[c] + [Entry(|h.log[c]|, t, command)];
    h.(log := h.log[c := log],
       reign := h.reign[t := h.reign[t].(log := log)],
       acks := h.acks + {Ack(c, t, |log| - 1)})
  }

  function Accept(h: History, v: int, log: Log, index: int): History
    requires Sized(h) && 0 <= v < |h.log|
  {
    h.(log := h.log[v := log], acks := h.acks + {Ack(v, h.term[v], index)})
  }

  function Install(h: History, v: int, log: Log): History
    requires Sized(h) && 0 <= v < |h.log|
  {
    h.(log := h.log[v := log])
  }

  // ----- facts of every run ----------------------------------------------------------------

  /** Every entry stands, at its index, in the log of the reign its term names. */
  ghost predicate Sourced(h: History, log: Log) {
    forall i | 0 <= i < |log| ::
      log[i].term in h.reign && i < |h.reign[log[i].term].log| && h.reign[log[i].term].log[i] == log[i]
  }

  ghost predicate TermsUpTo(log: Log, t: int) {
    forall i | 0 <= i < |log| :: log[i].term <= t
  }

  ghost predicate GoodLog(h: History, v: int)
    requires Sized(h) && 0 <= v < |h.log|
  {
    Shaped(h.log[v]) && Sourced(h, h.log[v]) && TermsUpTo(h.log[v], h.term[v])
  }

  ghost predicate GoodVote(h: History, k: (int, int))
    requires Sized(h) && k in h.vote
  {
    && 0 <= k.0 < |h.log| && 0 < k.1 <= h.term[k.0]
    && (h.vote[k].candidate, k.1) in h.candidacy
    && Shaped(h.vote[k].log)
    && |h.candidacy[(h.vote[k].candidate, k.1)]| > 0
    && UpToDate(h.candidacy[(h.vote[k].candidate, k.1)], h.vote[k].log)
  }

  ghost predicate GoodCandidacy(h: History, k: (int, int))
    requires Sized(h) && k in h.candidacy
  {
    && 0 <= k.0 < |h.log| && 0 < k.1 <= h.term[k.0]
    && k in h.vote && h.vote[k].candidate == k.0
    && Shaped(h.candidacy[k]) && TermsUpTo(h.candidacy[k], k.1 - 1)
  }

  ghost predicate ElectedBy(h: History, c: int, t: int, electors: set<int>) {
    && Majority(|h.log|, electors)
    && forall v | v in electors :: (v, t) in h.vote && h.vote[(v, t)].candidate == c
  }

  ghost predicate GoodReign(h: History, t: int)
    requires Sized(h) && t in h.reign
  {
    var r := h.reign[t];
    && t >= 0
    && Shaped(r.log) && Sourced(h, r.log) && TermsUpTo(r.log, t)
    && (t == 0 ==> r.log == [ORIGIN])
    && (t > 0 ==>
          && 0 <= r.leader < |h.log| && t <= h.term[r.leader]
          && (r.leader, t) in h.candidacy
          && ElectedBy(h, r.leader, t, r.electors))
  }

  ghost predicate GoodAck(h: History, a: Ack)
    requires Sized(h)
  {
    && 0 <= a.server < |h.log|
    && a.term in h.reign
    && 0 <= a.index < |h.reign[a.term].log|
    && a.term <= h.term[a.server]
  }

  ghost predicate Sound(h: History) {
    && Sized(h)
    && 0 in h.reign
    && (forall v | 0 <= v < |h.term| :: h.term[v] >= 0)
    && (forall v | 0 <= v < |h.log| :: GoodLog(h, v))
    && (forall k | k in h.vote :: GoodVote(h, k))
    && (forall k | k in h.candidacy :: GoodCandidacy(h, k))
    && (forall t | t in h.reign :: GoodReign(h, t))
    && (forall a | a in h.acks :: GoodAck(h, a))
  }

  lemma SoundSized(h: History)
    requires Sound(h)
    ensures Sized(h)
  {
  }

  /** h' remembers everything h does; terms never fall, a reign's log only grows, by its own term. */
  ghost predicate Grows(h: History, h': History) {
    && |h'.term| == |h.term| && |h'.log| == |h.log|
    && (forall v | 0 <= v < |h.term| :: h.term[v] <= h'.term[v])
    && (forall k | k in h.candidacy :: k in h'.candidacy && h'.candidacy[k] == h.candidacy[k])
    && (forall k | k in h.vote :: k in h'.vote && h'.vote[k] == h.vote[k])
    && (forall t | t in h.reign :: t in h'.reign && ReignGrows(t, h.reign[t], h'.reign[t]))
    && h.acks <= h'.acks
  }

  ghost predicate ReignGrows(t: int, r: Reign, r': Reign) {
    && r'.leader == r.leader
    && r'.electors == r.electors
    && |r.log| <= |r'.log|
    && (forall j | 0 <= j < |r.log| :: r'.log[j] == r.log[j])
    && (forall j | |r.log| <= j < |r'.log| :: r'.log[j].term == t)
  }

  lemma GrowsSized(h: History, h': History)
    requires Grows(h, h')
    ensures |h'.term| == |h.term| && |h'.log| == |h.log|
  {
  }

  lemma GrowsTransitive(a: History, b: History, c: History)
    requires Grows(a, b) && Grows(b, c)
    ensures Grows(a, c)
  {
  }

  lemma SourcedGrows(h: History, h': History, log: Log)
    requires Grows(h, h') && Sourced(h, log)
    ensures Sourced(h', log)
  {
  }

  lemma OriginSound(n: nat)
    requires n > 0
    ensures Sound(Origin(n))
  {
  }

  /** A history that grew is sound again once its new and changed records are good. */
  lemma SoundGrows(h: History, h': History)
    requires Sound(h) && Sized(h') && Grows(h, h')
    requires forall v | 0 <= v < |h.log| :: h'.log[v] == h.log[v] || GoodLog(h', v)
    requires forall k | k in h'.vote :: k in h.vote || GoodVote(h', k)
    requires forall k | k in h'.candidacy :: k in h.candidacy || GoodCandidacy(h', k)
    requires forall t | t in h'.reign :: (t in h.reign && h'.reign[t] == h.reign[t]) || GoodReign(h', t)
    requires forall a | a in h'.acks :: a in h.acks || GoodAck(h', a)
    ensures Sound(h')
  {
    forall v | 0 <= v < |h.log| ensures GoodLog(h', v) {
      assert GoodLog(h, v);
      SourcedGrows(h, h', h.log[v]);
    }
    forall k | k in h'.vote ensures GoodVote(h', k) {
      assert k in h.vote ==> GoodVote(h, k);
    }
    forall k | k in h'.candidacy ensures GoodCandidacy(h', k) {
      assert k in h.candidacy ==> GoodCandidacy(h, k);
    }
    forall t | t in h'.reign ensures GoodReign(h', t) {
      if t in h.reign && h'.reign[t] == h.reign[t] {
        assert GoodReign(h, t);
        SourcedGrows(h, h', h.reign[t].log);
      }
    }
    forall a | a in h'.acks ensures GoodAck(h', a) {
      assert a in h.acks ==> GoodAck(h, a);
    }
  }

  lemma GrowsWithoutReigns(h: History, h': History)
    requires Sized(h) && Sized(h') && |h'.log| == |h.log| && h'.reign == h.reign && h.acks <= h'.acks
    requires forall v | 0 <= v < |h.term| :: h.term[v] <= h'.term[v]
    requires forall k | k in h.candidacy :: k in h'.candidacy && h'.candidacy[k] == h.candidacy[k]
    requires forall k | k in h.vote :: k in h'.vote && h'.vote[k] == h.vote[k]
    ensures Grows(h, h')
  {
  }

  lemma RaiseSound(h: History, v: int, t: int)
    requires Sound(h) && 0 <= v < |h.log| && h.term[v] <= t
    ensures Sound(Raise(h, v, t)) && Grows(h, Raise(h, v, t))
  {
    GrowsWithoutReigns(h, Raise(h, v, t));
    SoundGrows(h, Raise(h, v, t));
  }

  /** A server has no vote and no candidacy in a term it has not reached. */
  lemma NothingAhead(h: History, v: int, t: int)
    requires Sound(h) && 0 <= v < |h.log| && h.term[v] < t
    ensures (v, t) !in h.vote && (v, t) !in h.candidacy
  {
    assert (v, t) in h.candidacy ==> GoodCandidacy(h, (v, t));
    assert (v, t) in h.vote ==> GoodVote(h, (v, t));
  }

  lemma ElectSound(h: History, c: int)
    requires Sound(h) && 0 <= c < |h.log|
    ensures Sound(Elect(h, c)) && Grows(h, Elect(h, c))
  {
    var h', k := Elect(h, c), (c, h.term[c] + 1);
    NothingAhead(h, c, k.1);
    GrowsWithoutReigns(h, h');
    assert GoodLog(h, c);
    assert GoodVote(h', k) && GoodCandidacy(h', k);
    SoundGrows(h, h');
  }

  lemma CastVoteSound(h: History, v: int, c: int)
    requires Sound(h) && 0 <= v < |h.log|
    requires h.term[v] > 0 && (c, h.term[v]) in h.candidacy
    requires |h.candidacy[(c, h.term[v])]| > 0 && |h.log[v]| > 0
    requires UpToDate(h.candidacy[(c, h.term[v])], h.log[v])
    requires (v, h.term[v]) !in h.vote
    ensures Sound(CastVote(h, v, c)) && Grows(h, CastVote(h, v, c))
  {
    var h' := CastVote(h, v, c);
    GrowsWithoutReigns(h, h');
    assert GoodLog(h, v);
    assert GoodVote(h', (v, h.term[v]));
    SoundGrows(h, h');
  }

  lemma WinGrows(h: History, c: int, electors: set<int>)
    requires Sized(h) && 0 <= c < |h.log| && h.term[c] !in h.reign
    ensures Grows(h, Win(h, c, electors))
  {
  }

  lemma WinSound(h: History, c: int, electors: set<int>)
    requires Sound(h) && 0 <= c < |h.log|
    requires h.term[c] !in h.reign && (c, h.term[c]) in h.candidacy
    requires ElectedBy(h, c, h.term[c], electors)
    ensures Sound(Win(h, c, electors)) && Grows(h, Win(h, c, electors))
  {
    var h' := Win(h, c, electors);
    WinGrows(h, c, electors);
    assert GoodLog(h, c) && GoodCandidacy(h, (c, h.term[c]));
    SourcedGrows(h, h', h.log[c]);
    assert ElectedBy(h', c, h.term[c], electors);
    assert GoodReign(h', h.term[c]);
    SoundGrows(h, h');
  }

  /** What proposing changes: one entry more at the end of the leader's log and of its reign's. */
  ghost predicate Proposed(h: History, h': History, c: int)
    requires Sized(h) && 0 <= c < |h.log|
  {
    var t := h.term[c];
    && h'.term == h.term && h'.candidacy == h.candidacy && h'.vote == h.vote
    && |h'.log| == |h.log| && (forall u | 0 <= u < |h.log| && u != c :: h'.log[u] == h.log[u])
    && t in h.reign && h'.reign.Keys == h.reign.Keys
    && (forall r | r in h.reign && r != t :: h'.reign[r] == h.reign[r])
    && ReignGrows(t, h.reign[t], h'.reign[t])
    && h'.reign[t].log == h'.log[c]
    && |h'.log[c]| == |h.log[c]| + 1
    && (forall j | 0 <= j < |h.log[c]| :: h'.log[c][j] == h.log[c][j])
    && h'.log[c][|h.log[c]|].index == |h.log[c]| && h'.log[c][|h.log[c]|].term == t
    && h'.acks == h.acks + {Ack(c, t, |h.log[c]|)}
  }

  lemma ProposeIs(h: History, c: int, command: string)
    requires Sized(h) && 0 <= c < |h.log|
    requires h.term[c] in h.reign && h.reign[h.term[c]].log == h.log[c]
    ensures Proposed(h, Propose(h, c, command), c)
  {
  }

  lemma ProposedGrows(h: History, h': History, c: int)
    requires Sized(h) && 0 <= c < |h.log| && Proposed(h, h', c)
    ensures Grows(h, h')
  {
    forall r | r in h.reign ensures r in h'.reign && ReignGrows(r, h.reign[r], h'.reign[r]) {
      assert r != h.term[c] ==> h'.reign[r] == h.reign[r];
    }
  }

  lemma ProposedLog(h: History, h': History, c: int)
    requires Sized(h) && 0 <= c < |h.log| && GoodLog(h, c) && Proposed(h, h', c) && Grows(h, h')
    ensures Shaped(h'.log[c]) && Sourced(h', h'.log[c]) && TermsUpTo(h'.log[c], h.term[c])
  {
    SourcedGrows(h, h', h.log[c]);
    hide Grows;
    var log := h'.log[c];
    forall i | 0 <= i < |log|
      ensures log[i].term in h'.reign && i < |h'.reign[log[i].term].log| && h'.reign[log[i].term].log[i] == log[i]
    {
      if i < |h.log[c]| {
        assert h.log[c][i] == log[i];
      }
    }
  }

  lemma ProposedSound(h: History, h': History, c: int)
    requires Sound(h) && 0 <= c < |h.log| && Proposed(h, h', c)
    requires h.term[c] > 0 && h.reign[h.term[c]].leader == c && h.reign[h.term[c]].log == h.log[c]
    ensures Sound(h') && Grows(h, h')
  {
    var t := h.term[c];
    assert GoodLog(h, c) && GoodReign(h, t);
    ProposedGrows(h, h', c);
    ProposedLog(h, h', c);
    assert GoodReign(h', t);
    hide Grows, Shaped, Sourced, TermsUpTo, ElectedBy, ReignGrows;
    assert GoodLog(h', c) && GoodAck(h', Ack(c, t, |h.log[c]|));
    hide GoodLog, GoodReign, GoodAck, GoodVote, GoodCandidacy;
    SoundGrows(h, h');
  }

  lemma AcceptSound(h: History, v: int, log: Log, index: int)
    requires Sound(h) && 0 <= v < |h.log|
    requires Shaped(log) && Sourced(h, log) && TermsUpTo(log, h.term[v])
    requires h.term[v] in h.reign && 0 <= index < |h.reign[h.term[v]].log|
    ensures Sound(Accept(h, v, log, index)) && Grows(h, Accept(h, v, log, index))
  {
    var h' := Accept(h, v, log, index);
    GrowsWithoutReigns(h, h');
    SourcedGrows(h, h', log);
    assert GoodLog(h', v) && GoodAck(h', Ack(v, h.term[v], index));
    hide GoodLog, GoodReign, GoodVote, GoodCandidacy, Grows, Shaped, Sourced, TermsUpTo;
    SoundGrows(h, h');
  }

  lemma InstallSound(h: History, v: int, log: Log)
    requires Sound(h) && 0 <= v < |h.log|
    requires Shaped(log) && Sourced(h, log) && TermsUpTo(log, h.term[v])
    ensures Sound(Install(h, v, log)) && Grows(h, Install(h, v, log))
  {
    var h' := Install(h, v, log);
    GrowsWithoutReigns(h, h');
    SourcedGrows(h, h', log);
    assert GoodLog(h', v);
    SoundGrows(h, h');
  }

  /** Two majorities cannot elect different candidates in one term. */
  lemma OneWinner(h: History, t: int, c: int, electors: set<int>)
    requires Sound(h) && t > 0 && t in h.reign
    requires ElectedBy(h, c, t, electors)
    ensures h.reign[t].leader == c
  {
    assert GoodReign(h, t);
    var v := MajoritiesMeet(|h.log|, h.reign[t].electors, electors);
  }

  /** An index and a term name one entry. */
  lemma EntryUnique(h: History, a: Log, b: Log, i: int)
    requires Sourced(h, a) && Sourced(h, b)
    requires 0 <= i < |a| && i < |b| && a[i].term == b[i].term
    ensures a[i] == b[i]
  {
  }
}
