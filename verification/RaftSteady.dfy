/** Every operation of a clean run keeps the history steady. */
module RaftSteady {
  import opened RaftLog
  import opened RaftHistory
  import opened RaftConsensus

  lemma OriginSteady(n: nat)
    requires n > 0
    ensures Steady(Origin(n))
  {
    OriginSound(n);
    var h := Origin(n);
    assert AllMatched(h);
    assert AllRetained(h);
  }

  lemma RaiseSteady(h: History, v: int, t: int)
    requires Steady(h) && 0 <= v < |h.log| && h.term[v] <= t
    ensures Steady(Raise(h, v, t))
  {
    var h' := Raise(h, v, t);
    RaiseSound(h, v, t);
    MatchedStays(h, h');
    RetainedStays(h, h');
    HeldAtVoteStays(h, h');
    StandingStays(h, h');
    ExtendStays(h, h');
  }

  /** A server that votes holds what it acknowledged in earlier terms, or a reign before this term displaced it. */
  lemma VoterHolds(h: History, h': History, a: Ack, k: (int, int))
    requires Steady(h) && Grows(h, h') && a in h.acks && GoodAck(h, a)
    requires k in h'.vote && h'.vote[k].log == h.log[a.server]
    requires h.term[a.server] <= k.1
    requires h.term[a.server] == k.1 && a.term < k.1 && a.server == k.0 && Counts(h', k) ==> k.1 !in h.reign
    ensures HeldAtVote(h', a, k)
  {
    if a.server == k.0 && a.term < k.1 && Counts(h', k) {
      assert Retained(h, a);
      if Agree(h.log[a.server], h.reign[a.term].log, a.index) {
        AgreeGrows(h, h', h.log[a.server], a.term, a.index);
      } else {
        var upTo := h.term[a.server];
        assert Displaced(h, a.term, a.index, k.1 - 1) by {
          var r :| a.term < r <= upTo && r in h.reign && !Agree(h.reign[r].log, h.reign[a.term].log, a.index);
          assert r != k.1;
        }
        DisplacedGrows(h, h', a.term, a.index, k.1 - 1, k.1 - 1);
      }
    }
  }

  lemma ElectHeldAtVote(h: History, c: int)
    requires Steady(h) && 0 <= c < |h.log| && Grows(h, Elect(h, c)) && Sized(Elect(h, c))
    ensures AllHeldAtVote(Elect(h, c))
  {
    var h', k := Elect(h, c), (c, h.term[c] + 1);
    forall a, k' | a in h'.acks && k' in h'.vote && (a !in h.acks || k' !in h.vote)
      ensures a.term in h'.reign && HeldAtVote(h', a, k')
    {
      assert k' == k && GoodAck(h, a);
      if a.server == c {
        VoterHolds(h, h', a, k);
      }
    }
    HeldAtVoteStays(h, h');
  }

  lemma ElectMatched(h: History, c: int)
    requires AllMatched(h) && Sized(h) && 0 <= c < |h.log| && Grows(h, Elect(h, c))
    ensures AllMatched(Elect(h, c))
  {
    MatchedGrows(h, Elect(h, c), h.log[c]);
    MatchedStays(h, Elect(h, c));
  }

  lemma ElectSteady(h: History, c: int)
    requires Steady(h) && 0 <= c < |h.log|
    ensures Steady(Elect(h, c))
  {
    var h' := Elect(h, c);
    ElectSound(h, c);
    assert Sized(h) && Sized(h');
    hide Sound, AllMatched, AllHeldAtVote, AllExtend, Grows;
    ElectMatched(h, c);
    RetainedStays(h, h');
    ElectHeldAtVote(h, c);
    StandingStays(h, h');
    ExtendStays(h, h');
  }

  lemma CastVoteHeldAtVote(h: History, v: int, c: int)
    requires Steady(h) && 0 <= v < |h.log|
    requires Grows(h, CastVote(h, v, c)) && Sized(CastVote(h, v, c))
    requires (v, h.term[v]) !in h.vote && h.term[v] > 0
    ensures AllHeldAtVote(CastVote(h, v, c))
  {
    var h', k := CastVote(h, v, c), (v, h.term[v]);
    assert Counts(h', k) ==> k.1 !in h.reign by {
      assert k.1 in h.reign ==> GoodReign(h, k.1);
    }
    forall a, k' | a in h'.acks && k' in h'.vote && (a !in h.acks || k' !in h.vote)
      ensures a.term in h'.reign && HeldAtVote(h', a, k')
    {
      assert k' == k && GoodAck(h, a);
      if a.server == v {
        VoterHolds(h, h', a, k);
      }
    }
    HeldAtVoteStays(h, h');
  }

  lemma CastVoteMatched(h: History, v: int, c: int)
    requires AllMatched(h) && Sized(h) && 0 <= v < |h.log| && Grows(h, CastVote(h, v, c))
    ensures AllMatched(CastVote(h, v, c))
  {
    MatchedGrows(h, CastVote(h, v, c), h.log[v]);
    MatchedStays(h, CastVote(h, v, c));
  }

  lemma CastVoteSteady(h: History, v: int, c: int)
    requires Steady(h) && 0 <= v < |h.log|
    requires h.term[v] > 0 && (c, h.term[v]) in h.candidacy
    requires |h.candidacy[(c, h.term[v])]| > 0 && |h.log[v]| > 0
    requires UpToDate(h.candidacy[(c, h.term[v])], h.log[v])
    requires (v, h.term[v]) !in h.vote
    ensures Steady(CastVote(h, v, c))
  {
    var h' := CastVote(h, v, c);
    CastVoteSound(h, v, c);
    CastVoteMatched(h, v, c);
    assert Sized(h) && Sized(h');
    hide Sound, AllMatched, AllHeldAtVote, AllExtend, Grows;
    RetainedStays(h, h');
    CastVoteHeldAtVote(h, v, c);
    StandingStays(h, h');
    ExtendStays(h, h');
  }

  /** The winner's log is the one it stood with: a snapshot it installed meanwhile changed nothing. */
  lemma WinnerStoodWith(h: History, c: int, electors: set<int>)
    requires Steady(h) && 0 <= c < |h.log|
    requires h.term[c] !in h.reign && (c, h.term[c]) in h.candidacy
    requires ElectedBy(h, c, h.term[c], electors)
    ensures h.log[c] == h.candidacy[(c, h.term[c])]
  {
    var t, k := h.term[c], (c, h.term[c]);
    var mine := h.candidacy[k];
    assert Standing(h, k);
    if h.log[c] != mine {
      var a, j := CommittedWitness(h, h.log[c], t);
      CandidacyComplete(h, a, j, c, t, electors);
      var log, lead := h.log[c], h.reign[a].log;
      assert Agree(log, lead, |log| - 1) && |mine| <= |log| <= j + 1;
      hide *;
      AgreeChain(log, lead, mine, |log| - 1, j);
      AgreeWhole(log, mine);
    }
  }

  lemma WinMatched(h: History, c: int, electors: set<int>)
    requires AllMatched(h) && Sized(h) && 0 <= c < |h.log| && Grows(h, Win(h, c, electors))
    ensures AllMatched(Win(h, c, electors))
  {
    MatchedGrows(h, Win(h, c, electors), h.log[c]);
    MatchedStays(h, Win(h, c, electors));
  }

  lemma WinSteady(h: History, c: int, electors: set<int>)
    requires Steady(h) && 0 <= c < |h.log|
    requires h.term[c] !in h.reign && (c, h.term[c]) in h.candidacy && h.term[c] > 0
    requires ElectedBy(h, c, h.term[c], electors)
    ensures Steady(Win(h, c, electors))
  {
    var h', t := Win(h, c, electors), h.term[c];
    WinSound(h, c, electors);
    WinnerStoodWith(h, c, electors);
    WinMatched(h, c, electors);
    hide Sound, AllMatched, AllHeldAtVote, AllExtend, Grows, ElectedBy;
    RetainedStays(h, h');
    HeldAtVoteStays(h, h');
    StandingStays(h, h');
    assert Extends(h', t);
    ExtendStays(h, h');
  }

  lemma ProposedMatched(h: History, h': History, c: int)
    requires AllMatched(h) && Sized(h) && 0 <= c < |h.log| && Proposed(h, h', c) && Grows(h, h')
    ensures AllMatched(h')
  {
    var log, t := h'.log[c], h.term[c];
    MatchedGrows(h, h', h.log[c]);
    assert Matched(h', log) by {
      hide Grows, AllMatched;
      forall i | 0 <= i < |log| ensures log[i].term in h'.reign && Agree(log, h'.reign[log[i].term].log, i) {
        if i < |h.log[c]| {
          assert log[i] == h.log[c][i];
          assert Agree(h.log[c], h'.reign[log[i].term].log, i);
        }
      }
    }
    hide Matched, Grows;
    MatchedStays(h, h');
  }

  lemma ProposedRetains(h: History, h': History, c: int, a: Ack)
    requires Sound(h) && 0 <= c < |h.log| && Proposed(h, h', c) && Grows(h, h')
    requires GoodAck(h, a) && a.server == c && Retained(h, a)
    ensures Agree(h'.log[c], h'.reign[a.term].log, a.index) || Displaced(h', a.term, a.index, h.term[c])
  {
    assert Sized(h);
    hide Sound;
    if Agree(h.log[c], h.reign[a.term].log, a.index) {
      AgreeGrows(h, h', h.log[c], a.term, a.index);
      hide Agree, Grows;
      AgreeLonger(h.log[c], h'.log[c], h'.reign[a.term].log, a.index);
    } else {
      hide Agree, Grows;
      DisplacedGrows(h, h', a.term, a.index, h.term[c], h.term[c]);
    }
  }

  lemma ProposedRetained(h: History, h': History, c: int)
    requires Sound(h) && AllRetained(h) && 0 <= c < |h.log| && Proposed(h, h', c) && Sound(h') && Grows(h, h')
    ensures AllRetained(h')
  {
    hide Sound, Grows, Agree, Displaced;
    SoundSized(h);
    SoundSized(h');
    forall a | a in h'.acks && GoodAck(h', a) ensures (a in h.acks && SameLog(h, h', a.server)) || Retained(h', a) {
      if a in h.acks {
        assert GoodAck(h, a) && Retained(h, a);
        if a.server == c {
          ProposedRetains(h, h', c, a);
        }
      } else {
        AgreeSelf(h'.log[c], a.index);
      }
    }
    RetainedStays(h, h');
  }

  lemma ProposedSteady(h: History, h': History, c: int)
    requires Steady(h) && 0 <= c < |h.log| && Proposed(h, h', c)
    requires h.term[c] > 0 && h.reign[h.term[c]].leader == c && h.reign[h.term[c]].log == h.log[c]
    ensures Steady(h')
  {
    ProposedSound(h, h', c);
    assert Sized(h) && Sized(h');
    ProposedRest(h, h', c);
    hide Sound, AllMatched, AllRetained, AllHeldAtVote, AllStanding, AllExtend, Grows, Proposed;
    ProposedMatched(h, h', c);
    ProposedRetained(h, h', c);
  }

  lemma ProposedRest(h: History, h': History, c: int)
    requires Steady(h) && 0 <= c < |h.log| && Proposed(h, h', c) && Sound(h') && Grows(h, h')
    ensures AllHeldAtVote(h') && AllStanding(h') && AllExtend(h')
  {
    assert forall a | a in h'.acks && a !in h.acks :: a.server == c && a.term == h.term[c];
    hide Steady, Sound, Grows, ReignGrows, AllHeldAtVote, AllStanding, AllExtend;
    AcknowledgedNow(h, h', c);
  }

  /** The remaining facts when one server's log and acknowledgements change in a term somebody leads. */
  lemma AcknowledgedNow(h: History, h': History, v: int)
    requires Steady(h) && Sound(h') && Grows(h, h')
    requires h'.vote == h.vote && h'.term == h.term && h'.candidacy == h.candidacy && h'.reign.Keys == h.reign.Keys
    requires 0 <= v < |h.log| && h.term[v] in h.reign
    requires forall u | 0 <= u < |h.log| && u != v :: h'.log[u] == h.log[u]
    requires forall a | a in h'.acks && a !in h.acks :: a.server == v && a.term == h.term[v]
    ensures AllHeldAtVote(h') && AllStanding(h') && AllExtend(h')
  {
    NoVotesBeyond(h, h', v);
    HeldAtVoteStays(h, h');
    StandingLed(h, h', v);
    StandingStays(h, h');
    ExtendStays(h, h');
  }

  /** A new acknowledgement is of the server's current term, so no vote of a later term precedes it. */
  lemma NoVotesBeyond(h: History, h': History, v: int)
    requires Sound(h) && Sound(h') && h'.vote == h.vote && h'.term == h.term
    requires 0 <= v < |h.log|
    requires forall a | a in h'.acks && a !in h.acks :: a.server == v && a.term == h.term[v]
    ensures forall a, k | a in h'.acks && k in h'.vote && (a !in h.acks || k !in h.vote) ::
      a.term in h'.reign && HeldAtVote(h', a, k)
  {
    forall a, k | a in h'.acks && k in h'.vote && (a !in h.acks || k !in h.vote)
      ensures a.term in h'.reign && HeldAtVote(h', a, k)
    {
      assert GoodAck(h', a) && GoodVote(h, k);
    }
  }

  /** In a term somebody leads, nobody is still standing. */
  lemma StandingLed(h: History, h': History, v: int)
    requires Sound(h) && Sound(h') && h'.candidacy == h.candidacy && h'.term == h.term
    requires 0 <= v < |h.log| && |h'.log| == |h.log| && h.term[v] in h'.reign
    requires forall u | 0 <= u < |h.log| && u != v :: h'.log[u] == h.log[u]
    ensures forall k | k in h'.candidacy && GoodCandidacy(h', k) ::
      (k in h.candidacy && SameLog(h, h', k.0)) || Standing(h', k)
  {
  }

  /** What an AppendEntries may make of a follower's log in a clean run. */
  ghost predicate FollowsLeader(h: History, v: int, log: Log, index: int)
    requires Sized(h) && 0 <= v < |h.log|
  {
    && h.term[v] in h.reign
    && 0 <= index < |h.reign[h.term[v]].log|
    && Agree(log, h.reign[h.term[v]].log, index)
    && (log == h.log[v] || (|log| == index + 1 && |log| >= |h.log[v]|))
  }

  lemma FollowerShape(h: History, v: int, log: Log, index: int)
    requires Steady(h) && 0 <= v < |h.log| && FollowsLeader(h, v, log, index)
    ensures Shaped(log) && Sourced(h, log) && TermsUpTo(log, h.term[v]) && Matched(h, log)
  {
    var t := h.term[v];
    assert GoodLog(h, v) && GoodReign(h, t);
    if log != h.log[v] {
      PrefixInherits(h, h.reign[t].log, log, t);
      PrefixMatched(h, h.reign[t].log, log);
    }
  }

  lemma AcceptRetained(h: History, v: int, log: Log, index: int)
    requires Steady(h) && 0 <= v < |h.log| && FollowsLeader(h, v, log, index)
    requires Sound(Accept(h, v, log, index)) && Grows(h, Accept(h, v, log, index))
    ensures AllRetained(Accept(h, v, log, index))
  {
    var h' := Accept(h, v, log, index);
    forall a | a in h'.acks && GoodAck(h', a) ensures (a in h.acks && SameLog(h, h', a.server)) || Retained(h', a) {
      if a in h.acks && a.server == v {
        assert GoodAck(h, a) && Retained(h, a);
        AcceptRetains(h, a, log, index);
      }
    }
    RetainedStays(h, h');
  }

  /** In a clean run a follower's log becomes the leader's, or was already longer and stays. */
  lemma AcceptSteady(h: History, v: int, log: Log, index: int)
    requires Steady(h) && 0 <= v < |h.log| && FollowsLeader(h, v, log, index)
    ensures Steady(Accept(h, v, log, index))
  {
    var h' := Accept(h, v, log, index);
    FollowerShape(h, v, log, index);
    AcceptSound(h, v, log, index);
    LogReplacedMatched(h, h', v);
    AcceptRetained(h, v, log, index);
    AcknowledgedNow(h, h', v);
  }

  lemma LogReplacedMatched(h: History, h': History, v: int)
    requires AllMatched(h) && Grows(h, h') && 0 <= v < |h.log|
    requires h'.vote == h.vote && h'.candidacy == h.candidacy && h'.reign == h.reign
    requires forall u | 0 <= u < |h.log| && u != v :: h'.log[u] == h.log[u]
    requires Matched(h, h'.log[v])
    ensures AllMatched(h')
  {
    MatchedGrows(h, h', h'.log[v]);
    MatchedStays(h, h');
  }

  lemma PrefixInherits(h: History, whole: Log, p: Log, t: int)
    requires Shaped(whole) && Sourced(h, whole) && TermsUpTo(whole, t)
    requires |p| > 0 && Agree(p, whole, |p| - 1)
    ensures Shaped(p) && Sourced(h, p) && TermsUpTo(p, t)
  {
    assert forall i | 0 <= i < |p| :: p[i] == whole[i];
  }

  lemma PrefixMatched(h: History, whole: Log, p: Log)
    requires Matched(h, whole)
    requires |p| > 0 && Agree(p, whole, |p| - 1)
    ensures Matched(h, p)
  {
    forall i | 0 <= i < |p| ensures p[i].term in h.reign && Agree(p, h.reign[p[i].term].log, i) {
      assert p[i] == whole[i];
      assert Agree(whole, h.reign[whole[i].term].log, i);
    }
  }

  lemma AcceptRetains(h: History, a: Ack, log: Log, index: int)
    requires Steady(h) && GoodAck(h, a) && Retained(h, a)
    requires FollowsLeader(h, a.server, log, index)
    ensures Agree(log, h.reign[a.term].log, a.index) || Displaced(h, a.term, a.index, h.term[a.server])
  {
    var t := h.term[a.server];
    if Agree(h.log[a.server], h.reign[a.term].log, a.index) && log != h.log[a.server] {
      if a.term == t || Agree(h.reign[t].log, h.reign[a.term].log, a.index) {
        assert a.index <= index;
      }
    }
  }

  lemma InstallRetained(h: History, v: int, log: Log)
    requires Steady(h) && 0 <= v < |h.log|
    requires |log| >= |h.log[v]| && Committed(h, log, h.term[v])
    requires Sound(Install(h, v, log)) && Grows(h, Install(h, v, log))
    ensures AllRetained(Install(h, v, log))
  {
    var h' := Install(h, v, log);
    forall a | a in h'.acks && GoodAck(h', a) ensures (a in h.acks && SameLog(h, h', a.server)) || Retained(h', a) {
      if a.server == v {
        assert GoodAck(h, a) && Retained(h, a);
        InstallRetains(h, a, log);
      }
    }
    RetainedStays(h, h');
  }

  lemma InstallStanding(h: History, v: int, log: Log)
    requires Steady(h) && 0 <= v < |h.log|
    requires |log| >= |h.log[v]| && Committed(h, log, h.term[v])
    requires Sound(Install(h, v, log)) && Grows(h, Install(h, v, log))
    ensures AllStanding(Install(h, v, log))
  {
    var h' := Install(h, v, log);
    forall k | k in h'.candidacy && GoodCandidacy(h', k) ensures (k in h.candidacy && SameLog(h, h', k.0)) || Standing(h', k) {
      if k.0 == v && h.term[v] == k.1 && k.1 !in h.reign {
        assert GoodCandidacy(h, k) && Standing(h, k);
        CommittedGrows(h, h', log, k.1, k.1);
      }
    }
    StandingStays(h, h');
  }

  /** In a clean run a snapshot is a committed prefix: it replaces a log it covers, or changes nothing. */
  lemma InstallSteady(h: History, v: int, log: Log)
    requires Steady(h) && 0 <= v < |h.log|
    requires |log| >= |h.log[v]| && Committed(h, log, h.term[v])
    ensures Steady(Install(h, v, log))
  {
    var h' := Install(h, v, log);
    CommittedShape(h, log, h.term[v]);
    InstallSound(h, v, log);
    CommittedMatched(h, log, h.term[v]);
    LogReplacedMatched(h, h', v);
    InstallRetained(h, v, log);
    HeldAtVoteStays(h, h');
    InstallStanding(h, v, log);
    ExtendStays(h, h');
  }

  lemma CommittedShape(h: History, p: Log, t: int)
    requires Sound(h) && Committed(h, p, t)
    ensures Shaped(p) && Sourced(h, p) && TermsUpTo(p, t)
  {
    var a, j :| a <= t && PrefixOfChosen(h, p, a, j);
    assert GoodReign(h, a);
    PrefixInherits(h, h.reign[a].log, p, a);
  }

  /** Chosen in an earlier term than the acknowledgement: the later reign has the whole prefix. */
  lemma EarlierCovers(h: History, a: Ack, log: Log, b: int, j: int)
    requires Steady(h) && a.term in h.reign && b < a.term && PrefixOfChosen(h, log, b, j) && 0 <= a.index < |log|
    ensures Agree(log, h.reign[a.term].log, a.index)
  {
    hide Steady, Agree;
    LeaderCompleteness(h, b, j, a.term);
    AgreeChain(log, h.reign[b].log, h.reign[a.term].log, |log| - 1, j);
    AgreeShort(log, h.reign[a.term].log, |log| - 1, a.index);
  }

  /** Chosen in a later term: its reign has the entry, or displaced it. */
  lemma LaterCovers(h: History, a: Ack, log: Log, b: int, j: int, t: int)
    requires a.term in h.reign && a.term < b <= t && PrefixOfChosen(h, log, b, j) && 0 <= a.index < |log|
    ensures Agree(log, h.reign[a.term].log, a.index) || Displaced(h, a.term, a.index, t)
  {
    hide Agree;
    if Agree(h.reign[b].log, h.reign[a.term].log, a.index) {
      AgreeShort(log, h.reign[b].log, |log| - 1, a.index);
      AgreeThrough(log, h.reign[b].log, h.reign[a.term].log, a.index);
    }
  }

  lemma SteadySized(h: History)
    requires Steady(h)
    ensures Sized(h)
  {
  }

  /** A committed prefix no shorter than the log retains what the log did. */
  lemma InstallRetains(h: History, a: Ack, log: Log)
    requires Steady(h) && GoodAck(h, a) && Retained(h, a)
    requires |log| >= |h.log[a.server]| && Committed(h, log, h.term[a.server])
    ensures Agree(log, h.reign[a.term].log, a.index) || Displaced(h, a.term, a.index, h.term[a.server])
  {
    hide Steady, Agree, Displaced;
    SteadySized(h);
    if Agree(h.log[a.server], h.reign[a.term].log, a.index) {
      AgreeReaches(h.log[a.server], h.reign[a.term].log, a.index);
      var b, j :| b <= h.term[a.server] && PrefixOfChosen(h, log, b, j);
      if b < a.term {
        EarlierCovers(h, a, log, b, j);
      } else if b == a.term {
        AgreeShort(log, h.reign[b].log, |log| - 1, a.index);
      } else {
        LaterCovers(h, a, log, b, j, h.term[a.server]);
      }
    }
  }
}
