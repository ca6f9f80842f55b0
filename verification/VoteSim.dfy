/** Voting, campaigning and the other calls of the election machine, as ledger steps. */
module VoteSim {
  import opened RaftLog
  import opened RaftCore
  import opened Ledger
  import opened Trail
  import opened CoreSim

  /** A core fits an extension that changes neither its log, nor any leader log, nor its reads. */
  lemma SelfStays(h: Trail, k: Trail, v: Id, c: State)
    requires CoreOK(h, v, c) && Grows(h, k)
    requires k.book.term[v] == h.book.term[v] && k.book.log[v] == h.book.log[v]
    requires k.book.lead == h.book.lead && k.book.won == h.book.won && k.book.commits == h.book.commits
    requires k.sent == h.sent && k.regs == h.regs && VoteLinked(k, v, c)
    ensures CoreOK(k, v, c)
  {
    CoreOpen(h, v, c);
    GrowthOpen(h, k);
    CursorsStay(h, k, c);
    PendingsStay(h, k, c.term, c.pendingReads);
    QueuesStay(h, k, c);
    if c.role.Leader? {
      forall p: Id
        ensures MatchOK(k, c, p)
      {
        assert MatchOK(h, c, p);
      }
    }
    CoreClose(k, v, c);
  }

  lemma CastStep(h: Trail, v: Id, camp: Campaign) returns (k: Trail)
    requires TrailInv(h) && v in h.book.members && camp in h.book.camps && camp.term == h.book.term[v]
    requires UpToDate(|camp.log|, LastTerm(camp.log), h.book.log[v])
    requires forall b :: b in h.book.ballots && b.voter == v ==> b.term < h.book.term[v]
    ensures k == h.(book := Cast(h.book, v, camp.cand)) && StepBy(h, k, v)
    ensures HasBallot(k.book, v, camp.term, camp.cand)
  {
    TrailOpen(h);
    CastOK(h.book, v, camp);
    k := h.(book := Cast(h.book, v, camp.cand));
    ReadsStay(h, k);
    assert Ballot(v, camp.term, camp.cand, h.book.log[v]) in k.book.ballots;
    TrailClose(k);
    MovesClose(h, k, v);
  }

  /** A node that has not voted in its term has no ballot there. */
  lemma NotVoted(h: Trail, v: Id, c: State)
    requires TrailInv(h) && CoreOK(h, v, c) && c.votedFor == NO_NODE
    ensures forall b :: b in h.book.ballots && b.voter == v ==> b.term < c.term
  {
    TrailOpen(h);
    CoreOpen(h, v, c);
    forall b | b in h.book.ballots && b.voter == v
      ensures b.term < c.term
    {
      assert BallotAt(h.book, b);
      var d :| Answers(h.book, b, d);
      assert CampAt(h.book, d);
    }
  }

  lemma GrantOK(h: Trail, v: Id, c: State, q: VoteRequest) returns (k: Trail)
    requires TrailInv(h) && CoreOK(h, v, c) && AskOK(h, q) && !q.preVote && q.term == c.term
    requires c.votedFor == NO_NODE || c.votedFor == q.candidate
    requires LogUpToDate(c, q.lastIndex, q.lastTerm)
    ensures StepBy(h, k, v) && CoreOK(k, v, c.(votedFor := q.candidate))
    ensures HasBallot(k.book, v, q.term, q.candidate)
  {
    TrailOpen(h);
    CoreOpen(h, v, c);
    var camp :| camp in h.book.camps && AsksFor(q, camp);
    assert CampAt(h.book, camp);
    if c.votedFor == q.candidate {
      k := h;
      StepByNothing(h, v);
      assert c.(votedFor := q.candidate) == c;
    } else {
      Contiguous(h, v, c);
      NotVoted(h, v, c);
      k := CastStep(h, v, camp);
      Grew(h, k, v);
      GrantedCore(h, k, v, c, q.candidate);
    }
  }

  lemma GrantedCore(h: Trail, k: Trail, v: Id, c: State, cand: Id)
    requires TrailInv(h) && CoreOK(h, v, c) && c.votedFor == NO_NODE
    requires k == h.(book := Cast(h.book, v, cand)) && Grows(h, k) && HasBallot(k.book, v, c.term, cand)
    ensures CoreOK(k, v, c.(votedFor := cand))
  {
    CoreOpen(h, v, c);
    GrowthOpen(h, k);
    var d := c.(votedFor := cand);
    NotVoted(h, v, c);
    CursorsStay(h, k, c);
    PendingsStay(h, k, c.term, c.pendingReads);
    QueuesStay(h, k, c);
    if c.role.Leader? {
      forall p: Id
        ensures MatchOK(k, d, p)
      {
        assert MatchOK(h, c, p);
      }
    }
    CoreClose(k, v, d);
  }

  /** Adopting a request's term, if it is newer. */
  lemma AdoptOK(h: Trail, v: Id, c: State, t: nat) returns (k: Trail)
    requires TrailInv(h) && CoreOK(h, v, c) && NoneConfirmed(c)
    ensures StepBy(h, k, v)
    ensures CoreOK(k, v, if t > c.term then StepDown(c, t) else c)
    ensures NoneConfirmed(if t > c.term then StepDown(c, t) else c)
  {
    if t > c.term {
      k := StepDownOK(h, v, c, t);
    } else {
      k := h;
      StepByNothing(h, v);
    }
  }

  lemma HandleRequestVoteOK(h: Trail, v: Id, c: State, q: VoteRequest, recent: bool) returns (k: Trail)
    requires TrailInv(h) && CoreOK(h, v, c) && NoneConfirmed(c) && AskOK(h, q)
    ensures StepBy(h, k, v) && CoreOK(k, v, HandleRequestVote(c, q, recent).0)
    ensures MessageOK(k, TellVote(v, q.candidate, q, HandleRequestVote(c, q, recent).1))
  {
    if q.preVote {
      k := h;
      StepByNothing(h, v);
    } else {
      var j := AdoptOK(h, v, c, q.term);
      var d := if q.term > c.term then StepDown(c, q.term) else c;
      if q.term == d.term && (d.votedFor == NO_NODE || d.votedFor == q.candidate) && LogUpToDate(d, q.lastIndex, q.lastTerm) {
        Grew(h, j, v);
        MessageStays(h, j, AskVote(v, q));
        k := GrantOK(j, v, d, q);
        StepByTrans(h, j, k, v);
      } else {
        k := j;
      }
    }
  }

  lemma HandleVoteReplyOK(h: Trail, cfg: Config, v: Id, c: State, from: Id, q: VoteRequest, r: VoteReply) returns (k: Trail)
    requires TrailInv(h) && CoreOK(h, v, c) && ConfigOK(h, cfg) && cfg.id == v && NoneConfirmed(c) && !q.preVote
    requires MessageOK(h, TellVote(from, v, q, r))
    ensures StepBy(h, k, v) && CoreOK(k, v, HandleVoteReply(cfg, c, from, q, r))
  {
    if r.term > c.term {
      k := StepDownOK(h, v, c, r.term);
    } else if !c.role.Candidate? || q.term != c.term || !r.granted {
      k := h;
      StepByNothing(h, v);
    } else {
      VoteCounted(h, v, c, from);
      k := MaybeWinOK(h, cfg, v, c.(votes := c.votes + {from}));
    }
  }

  lemma VoteCounted(h: Trail, v: Id, c: State, from: Id)
    requires CoreOK(h, v, c) && c.role.Candidate? && from in h.book.members && HasBallot(h.book, from, c.term, v)
    ensures CoreOK(h, v, c.(votes := c.votes + {from}))
  {
    CoreOpen(h, v, c);
    CoreClose(h, v, c.(votes := c.votes + {from}));
  }

  lemma HandlePreVoteReplyOK(h: Trail, cfg: Config, v: Id, c: State, from: Id, q: VoteRequest, r: VoteReply) returns (k: Trail)
    requires TrailInv(h) && CoreOK(h, v, c) && ConfigOK(h, cfg) && cfg.id == v && NoneConfirmed(c)
    ensures StepBy(h, k, v) && CoreOK(k, v, HandlePreVoteReply(cfg, c, from, q, r))
  {
    if r.term > c.term {
      k := StepDownOK(h, v, c, r.term);
    } else if !c.role.Follower? || q.term != c.term + 1 || c.preVotes.None? || !r.granted {
      k := h;
      StepByNothing(h, v);
    } else {
      var p := Some(c.preVotes.value + {from});
      PreVotesFree(h, v, c, p);
      k := MaybeWinPreVoteOK(h, cfg, v, c.(preVotes := p));
    }
  }

  lemma ElectionTimeoutOK(h: Trail, cfg: Config, v: Id, c: State, direct: bool) returns (k: Trail)
    requires TrailInv(h) && CoreOK(h, v, c) && ConfigOK(h, cfg) && cfg.id == v && NoneConfirmed(c)
    ensures StepBy(h, k, v) && CoreOK(k, v, ElectionTimeout(cfg, c, direct))
  {
    if c.role.Leader? {
      k := h;
      StepByNothing(h, v);
    } else if direct {
      k := StartCampaignOK(h, cfg, v, c);
    } else {
      k := StartPreCampaignOK(h, cfg, v, c);
    }
  }

  /** A node does not lead a term that another node has won. */
  lemma NotItsOwnTerm(h: Trail, v: Id, c: State, t: nat)
    requires CoreOK(h, v, c) && t in h.book.won && h.book.won[t].leader != v
    ensures c.term == t ==> !c.role.Leader?
  {
    CoreOpen(h, v, c);
  }

  lemma HandleTimeoutNowOK(h: Trail, cfg: Config, v: Id, c: State, t: nat, leader: Id) returns (k: Trail)
    requires TrailInv(h) && CoreOK(h, v, c) && ConfigOK(h, cfg) && cfg.id == v && NoneConfirmed(c)
    requires MessageOK(h, AskTimeoutNow(v, t, leader))
    ensures StepBy(h, k, v) && CoreOK(k, v, HandleTimeoutNow(cfg, c, t))
  {
    NotItsOwnTerm(h, v, c, t);
    var j := AdoptOK(h, v, c, t);
    var d := if t > c.term then StepDown(c, t) else c;
    if t < d.term {
      k := j;
    } else {
      k := StartCampaignOK(j, cfg, v, d);
      StepByTrans(h, j, k, v);
    }
  }
}
