/** Proposing, reading and hearing back from followers, as steps on the trail. */
module LeaderSim {
  import opened RaftLog
  import opened RaftCore
  import opened Ledger
  import opened Trail
  import opened CoreSim

  // ---- proposals ----

  lemma ExtendStep(h: Trail, v: Id, e: Entry) returns (k: Trail)
    requires TrailInv(h) && Leads(h.book, v) && e.term == h.book.term[v] && e.index == |h.book.log[v]| + 1
    ensures k == h.(book := Extend(h.book, v, e)) && StepBy(h, k, v) && Leads(k.book, v)
  {
    TrailOpen(h);
    ExtendOK(h.book, v, e);
    k := h.(book := Extend(h.book, v, e));
    ReadsStay(h, k);
    TrailClose(k);
    MovesClose(h, k, v);
  }

  lemma FullGrows(c: State, e: Entry)
    ensures Full(c.(entries := c.entries + [e])) == Full(c) + [e] && Full(c) <= Full(c) + [e]
  {
  }

  lemma AppendedCore(h: Trail, k: Trail, v: Id, c: State, e: Entry)
    requires TrailInv(h) && CoreOK(h, v, c) && c.role.Leader?
    requires k == h.(book := Extend(h.book, v, e)) && StepBy(h, k, v) && Leads(k.book, v)
    ensures CoreOK(k, v, c.(entries := c.entries + [e]))
  {
    CoreOpen(h, v, c);
    Grew(h, k, v);
    GrowthOpen(h, k);
    var d := c.(entries := c.entries + [e]);
    FullGrows(c, e);
    LeaderCursors(h, k, c, d);
    PendingsStay(h, k, c.term, c.pendingReads);
    QueuesStay(h, k, c);
    forall p: Id
      ensures MatchOK(k, d, p)
    {
      assert MatchOK(h, c, p);
    }
    CoreClose(k, v, d);
  }

  /** A leader's log is the leader log of its term. */
  lemma LeadIsLog(h: Trail, v: Id, c: State)
    requires CoreOK(h, v, c) && c.role.Leader?
    ensures Leads(h.book, v) && c.term in h.book.lead && h.book.lead[c.term] == Full(c)
  {
    CoreOpen(h, v, c);
  }

  lemma LogOK(h: Trail, v: Id, c: State, command: Bytes) returns (k: Trail)
    requires TrailInv(h) && CoreOK(h, v, c) && c.role.Leader?
    ensures var e := Entry(c.term, LastIndex(c) + 1, KIND_NORMAL, command);
            && StepBy(h, k, v) && CoreOK(k, v, c.(entries := c.entries + [e]))
            && c.term in k.book.lead && LastIndex(c) < |k.book.lead[c.term]| && k.book.lead[c.term][LastIndex(c)] == e
  {
    Contiguous(h, v, c);
    LeadIsLog(h, v, c);
    var e := Entry(c.term, LastIndex(c) + 1, KIND_NORMAL, command);
    k := ExtendStep(h, v, e);
    AppendedCore(h, k, v, c, e);
  }

  lemma ProposeOK(h: Trail, cfg: Config, v: Id, c: State, command: Bytes) returns (k: Trail)
    requires TrailInv(h) && CoreOK(h, v, c) && ConfigOK(h, cfg) && cfg.id == v
    ensures StepBy(h, k, v) && CoreOK(k, v, Propose(cfg, c, command).0)
    ensures var r := Propose(cfg, c, command).1;
            r.Accepted? ==> r.term in k.book.lead && 0 < r.index <= |k.book.lead[r.term]| &&
                            k.book.lead[r.term][r.index - 1] == Entry(r.term, r.index, KIND_NORMAL, command)
  {
    if !c.role.Leader? || c.transferTarget != NO_NODE {
      k := h;
      StepByNothing(h, v);
    } else {
      var i := LogOK(h, v, c, command);
      var e := Entry(c.term, LastIndex(c) + 1, KIND_NORMAL, command);
      k := AnnounceOK(i, cfg, v, c.(entries := c.entries + [e]));
      StepByTrans(h, i, k, v);
      Grew(i, k, v);
      GrowthOpen(i, k);
    }
  }

  lemma HeartbeatOK(h: Trail, cfg: Config, v: Id, c: State) returns (k: Trail)
    requires TrailInv(h) && CoreOK(h, v, c) && ConfigOK(h, cfg) && cfg.id == v
    ensures StepBy(h, k, v) && CoreOK(k, v, Heartbeat(cfg, c))
  {
    if c.role.Leader? {
      k := BroadcastOK(h, cfg, v, c, cfg.peers);
    } else {
      k := h;
      StepByNothing(h, v);
    }
  }

  lemma TimeoutNowSent(h: Trail, cfg: Config, v: Id, c: State, to: Id)
    requires TrailInv(h) && CoreOK(h, v, c) && cfg.id == v && c.role.Leader? && to != v
    ensures CoreOK(h, v, SendTimeoutNow(cfg, c, to))
  {
    CoreOpen(h, v, c);
    StepByNothing(h, v);
    Grew(h, h, v);
    SentCore(h, h, v, c, SendTimeoutNow(cfg, c, to), AskTimeoutNow(to, c.term, v));
  }

  /** The transfer target is not part of what the trail describes. */
  lemma TargetFree(h: Trail, v: Id, c: State, to: Id)
    requires CoreOK(h, v, c)
    ensures CoreOK(h, v, c.(transferTarget := to))
  {
    CoreOpen(h, v, c);
    var d := c.(transferTarget := to);
    assert c.role.Leader? ==> forall u: Id :: MatchOK(h, c, u) ==> MatchOK(h, d, u);
    CoreClose(h, v, d);
  }

  lemma TransferOK(h: Trail, cfg: Config, v: Id, c: State, to: Id) returns (k: Trail)
    requires TrailInv(h) && CoreOK(h, v, c) && ConfigOK(h, cfg) && cfg.id == v
    ensures StepBy(h, k, v) && CoreOK(k, v, TransferLeadership(cfg, c, to).0)
  {
    if !c.role.Leader? || to == v || to !in cfg.members {
      k := h;
      StepByNothing(h, v);
    } else {
      var d := c.(transferTarget := to);
      TargetFree(h, v, c, to);
      if Get(d.matchIndex, to) == LastIndex(d) {
        k := h;
        StepByNothing(h, v);
        TimeoutNowSent(h, cfg, v, d, to);
      } else {
        k := SendAppendOK(h, cfg, v, d, to);
      }
    }
  }

  // ---- reads ----

  /** Outcomes of reads that a majority confirmed cover everything committed before registration. */
  lemma QuorumProves(h: Trail, term: nat, p: PendingRead)
    requires TrailInv(h) && PendingOK(h, term, p) && |p.acks| >= Majority(h.book.members)
    ensures OutcomeOK(h, term, ReadOutcome(p.id, p.index, true))
  {
    TrailOpen(h);
    var r :| Tracks(h, term, p, r);
    assert RegAt(h, r);
    if !(forall c :: c in r.commits ==> c.len <= r.index) {
      var t :| Deposed(h, r, t);
      assert WonAt(h.book, t);
      var u := QuorumsMeet(h.book.members, h.book.won[t].voters, p.acks);
      assert false;
    }
    assert Proves(h, term, ReadOutcome(p.id, p.index, true), r);
  }

  lemma {:induction false} ConfirmedOK(h: Trail, term: nat, ps: seq<PendingRead>, q: nat)
    requires TrailInv(h) && PendingsOK(h, term, ps) && q == Majority(h.book.members)
    ensures OutcomesOK(h, term, Confirmed(ps, q)) && PendingsOK(h, term, Unconfirmed(ps, q))
  {
    if ps != [] {
      var p := ps[|ps| - 1];
      ConfirmedOK(h, term, ps[..|ps| - 1], q);
      assert PendingOK(h, term, p);
      if |p.acks| >= q { QuorumProves(h, term, p); }
    }
  }

  lemma ConfirmReadsOK(h: Trail, cfg: Config, v: Id, c: State)
    requires TrailInv(h) && CoreOK(h, v, c) && ConfigOK(h, cfg) && c.role.Leader?
    ensures CoreOK(h, v, ConfirmReads(cfg, c))
  {
    CoreOpen(h, v, c);
    ConfirmedOK(h, c.term, c.pendingReads, Majority(cfg.members));
    var d := ConfirmReads(cfg, c);
    assert forall u: Id :: MatchOK(h, c, u) ==> MatchOK(h, d, u);
    CoreClose(h, v, d);
  }

  lemma AckedOK(h: Trail, term: nat, ps: seq<PendingRead>, from: Id, seqNo: nat)
    requires TrailInv(h) && PendingsOK(h, term, ps) && from in h.book.members && Ack(from, term, seqNo) in h.acks
    ensures PendingsOK(h, term, Acked(ps, from, seqNo))
  {
    TrailOpen(h);
    var qs := Acked(ps, from, seqNo);
    forall p | p in qs
      ensures PendingOK(h, term, p)
    {
      var i :| 0 <= i < |ps| && p == qs[i];
      assert PendingOK(h, term, ps[i]);
      var r :| Tracks(h, term, ps[i], r);
      assert RegAt(h, r);
      assert Tracks(h, term, p, r);
    }
  }

  lemma NoteFreshAckOK(h: Trail, cfg: Config, v: Id, c: State, from: Id, seqNo: nat)
    requires TrailInv(h) && CoreOK(h, v, c) && ConfigOK(h, cfg) && c.role.Leader?
    requires from in h.book.members && Ack(from, c.term, seqNo) in h.acks
    ensures CoreOK(h, v, NoteFreshAck(cfg, c, from, seqNo))
    ensures NoteFreshAck(cfg, c, from, seqNo) == c.(pendingReads := NoteFreshAck(cfg, c, from, seqNo).pendingReads,
                                                    readOutcomes := NoteFreshAck(cfg, c, from, seqNo).readOutcomes)
  {
    CoreOpen(h, v, c);
    AckedOK(h, c.term, c.pendingReads, from, seqNo);
    var d := c.(pendingReads := Acked(c.pendingReads, from, seqNo));
    assert forall u: Id :: MatchOK(h, c, u) ==> MatchOK(h, d, u);
    CoreClose(h, v, d);
    ConfirmReadsOK(h, cfg, v, d);
  }

  /** The read that v registers in its term, given what the trail knows at that moment. */
  function Registration(h: Trail, c: State, client: nat): Reg
    requires Shape(h.book)
  {
    Reg(c.term, c.readCounter + 1, client, c.appendSeq + 1, c.commitIndex,
        (set u | u in h.book.members && h.book.term[u] > c.term), h.book.commits)
  }

  /** Whatever was committed when a ready leader registers a read is covered by its commit index,
      or a majority has already left the term. */
  lemma RegistrationCovers(h: Trail, v: Id, c: State, client: nat)
    requires TrailInv(h) && CoreOK(h, v, c) && c.role.Leader? && TermAt(c, c.commitIndex) == c.term
    ensures Covering(h, Registration(h, c, client))
  {
    TrailOpen(h);
    CoreOpen(h, v, c);
    var r := Registration(h, c, client);
    forall m | m in h.book.commits && m.len > r.index
      ensures Deposed(h, r, m.term)
    {
      assert CommitAt(h.book, m) && LeadAt(h.book, c.term);
      TermAtIs(h, v, c, c.commitIndex);
      if m.term < c.term {
        LeaderCompleteness(h.book, m.term, m.len, c.term);
        assert false;
      }
      forall u | u in h.book.won[m.term].voters
        ensures u in r.deposed
      {
        assert WonAt(h.book, m.term) && VotedIn(h.book, m.term, u);
        var b :| Elects(h.book, m.term, u, b);
        assert BallotAt(h.book, b);
      }
    }
  }

  lemma RegisteredReads(h: Trail, k: Trail, v: Id, c: State, q: Reg)
    requires TrailInv(h) && CoreOK(h, v, c) && c.role.Leader? && k == h.(regs := h.regs + {q})
    requires q.term == c.term && q.id == c.readCounter + 1 && q.minSeq == c.appendSeq + 1 && Covering(h, q)
    requires forall u :: u in q.deposed ==> u in h.book.term && c.term < h.book.term[u]
    ensures ReadsOK(k)
  {
    TrailOpen(h);
    CoreOpen(h, v, c);
    forall r
      ensures RegAt(k, r)
    {
      assert RegAt(h, r);
      if r == q || r in h.regs { CoveringStays(h, k, r); }
    }
  }

  lemma RegisterStep(h: Trail, v: Id, c: State, client: nat) returns (k: Trail)
    requires TrailInv(h) && CoreOK(h, v, c) && c.role.Leader? && TermAt(c, c.commitIndex) == c.term
    ensures k == h.(regs := h.regs + {Registration(h, c, client)}) && Moves(h, k, v)
  {
    var q := Registration(h, c, client);
    RegistrationCovers(h, v, c, client);
    k := h.(regs := h.regs + {q});
    RegisteredReads(h, k, v, c, q);
    LeadIsLog(h, v, c);
    TrailOpen(h);
    GrowthClose(h, k);
    TrailClose(k);
    MovesClose(h, k, v);
  }

  lemma RegisteredCore(h: Trail, k: Trail, v: Id, c: State, d: State, client: nat)
    requires TrailInv(h) && CoreOK(h, v, c) && c.role.Leader?
    requires k == h.(regs := h.regs + {Registration(h, c, client)}) && Moves(h, k, v)
    requires d == c.(readCounter := c.readCounter + 1,
                     pendingReads := c.pendingReads + [PendingRead(c.readCounter + 1, c.commitIndex, c.appendSeq + 1, {v})])
    ensures CoreOK(k, v, d)
  {
    CoreOpen(h, v, c);
    Grew(h, k, v);
    var p, r := PendingRead(c.readCounter + 1, c.commitIndex, c.appendSeq + 1, {v}), Registration(h, c, client);
    assert Tracks(k, c.term, p, r);
    PendingsStay(h, k, c.term, c.pendingReads);
    CursorsStay(h, k, c);
    QueuesStay(h, k, c);
    assert forall u: Id :: MatchOK(h, c, u) ==> MatchOK(k, d, u);
    CoreClose(k, v, d);
  }

  /** The core once the read is on its list, before any confirmation. */
  function Enlist(c: State, v: Id): State
  {
    c.(readCounter := c.readCounter + 1,
       pendingReads := c.pendingReads + [PendingRead(c.readCounter + 1, c.commitIndex, c.appendSeq + 1, {v})])
  }

  lemma EnlistOK(h: Trail, cfg: Config, v: Id, c: State, client: nat) returns (k: Trail)
    requires TrailInv(h) && CoreOK(h, v, c) && ConfigOK(h, cfg) && c.role.Leader? && TermAt(c, c.commitIndex) == c.term
    ensures k == h.(regs := h.regs + {Registration(h, c, client)}) && Moves(h, k, v)
    ensures CoreOK(k, v, ConfirmReads(cfg, Enlist(c, v)))
  {
    k := RegisterStep(h, v, c, client);
    RegisteredCore(h, k, v, c, Enlist(c, v), client);
    ConfirmReadsOK(k, cfg, v, Enlist(c, v));
  }

  lemma RequestReadOK(h: Trail, cfg: Config, v: Id, c: State, client: nat) returns (k: Trail)
    requires TrailInv(h) && CoreOK(h, v, c) && ConfigOK(h, cfg) && cfg.id == v
    ensures Moves(h, k, v) && CoreOK(k, v, RequestRead(cfg, c).0)
    ensures if RequestRead(cfg, c).1.ReadRegistered?
            then c.role.Leader? && k.regs == h.regs + {Registration(h, c, client)}
            else k == h && RequestRead(cfg, c).0 == c
  {
    if !c.role.Leader? || TermAt(c, c.commitIndex) != c.term {
      k := h;
      StepByNothing(h, v);
    } else {
      k := EnlistOK(h, cfg, v, c, client);
      var j, e := k, ConfirmReads(cfg, Enlist(c, v));
      if e.pendingReads != [] {
        k := BroadcastOK(j, cfg, v, e, cfg.peers);
        MovesTrans(h, j, k, v);
      }
    }
  }

  // ---- answers ----

  lemma MatchedCore(h: Trail, v: Id, c: State, from: Id, m: nat)
    requires TrailInv(h) && CoreOK(h, v, c) && c.role.Leader? && from in h.book.members
    requires Held(h.book, from, c.term, m) && m <= |Full(c)|
    ensures CoreOK(h, v, c.(matchIndex := c.matchIndex[from := m], nextIndex := c.nextIndex[from := m + 1]))
  {
    CoreOpen(h, v, c);
    var d := c.(matchIndex := c.matchIndex[from := m], nextIndex := c.nextIndex[from := m + 1]);
    forall u: Id
      ensures MatchOK(h, d, u)
    {
      assert MatchOK(h, c, u);
    }
    CoreClose(h, v, d);
  }

  lemma FollowUpOK(h: Trail, cfg: Config, v: Id, c: State, from: Id) returns (k: Trail)
    requires TrailInv(h) && CoreOK(h, v, c) && cfg.id == v && c.role.Leader? && from != v
    ensures StepBy(h, k, v) && CoreOK(k, v, FollowUp(cfg, c, from))
  {
    var d := c;
    if from == c.transferTarget && Get(c.matchIndex, from) == LastIndex(c) {
      TimeoutNowSent(h, cfg, v, c, from);
      d := SendTimeoutNow(cfg, c, from);
    }
    if Get(d.nextIndex, from) <= LastIndex(d) {
      k := SendAppendOK(h, cfg, v, d, from);
    } else {
      k := h;
      StepByNothing(h, v);
    }
  }

  lemma AdvanceOK(h: Trail, cfg: Config, v: Id, c: State, from: Id, m: nat) returns (k: Trail)
    requires TrailInv(h) && CoreOK(h, v, c) && ConfigOK(h, cfg) && cfg.id == v && c.role.Leader?
    requires from in h.book.members && Held(h.book, from, c.term, m) && m <= |Full(c)|
    ensures StepBy(h, k, v) && CoreOK(k, v, Advance(cfg, c, from, m)) && Advance(cfg, c, from, m).role.Leader?
  {
    if m > Get(c.matchIndex, from) {
      MatchedCore(h, v, c, from, m);
      k := MaybeAdvanceOK(h, cfg, v, c.(matchIndex := c.matchIndex[from := m], nextIndex := c.nextIndex[from := m + 1]));
    } else {
      k := h;
      StepByNothing(h, v);
    }
  }

  /** The match index that a successful answer carries is one the follower really reached. */
  lemma AckFacts(h: Trail, v: Id, c: State, from: Id, q: AppendRequest, r: AppendReply)
    requires CoreOK(h, v, c) && c.role.Leader? && MessageOK(h, TellAppend(from, v, q, r)) && r.success && q.term == c.term
    ensures from in h.book.members && from != v && Ack(from, c.term, r.seqNo) in h.acks
    ensures Held(h.book, from, c.term, q.prevIndex + |q.entries|) && q.prevIndex + |q.entries| <= |Full(c)|
  {
    LeadIsLog(h, v, c);
  }

  lemma SuccessOK(h: Trail, cfg: Config, v: Id, c: State, from: Id, m: nat) returns (k: Trail)
    requires TrailInv(h) && CoreOK(h, v, c) && ConfigOK(h, cfg) && cfg.id == v && c.role.Leader?
    requires from in h.book.members && from != v && Held(h.book, from, c.term, m) && m <= |Full(c)|
    ensures StepBy(h, k, v) && CoreOK(k, v, FollowUp(cfg, Advance(cfg, c, from, m), from))
  {
    var j := AdvanceOK(h, cfg, v, c, from, m);
    k := FollowUpOK(j, cfg, v, Advance(cfg, c, from, m), from);
    StepByTrans(h, j, k, v);
  }

  lemma RejectOK(h: Trail, cfg: Config, v: Id, c: State, from: Id, r: AppendReply) returns (k: Trail)
    requires TrailInv(h) && CoreOK(h, v, c) && cfg.id == v && c.role.Leader? && from != v
    ensures var d := c.(nextIndex := c.nextIndex[from := Backoff(c, from, r)]);
            StepBy(h, k, v) && CoreOK(k, v, SendAppend(cfg, d, from))
  {
    var d := c.(nextIndex := c.nextIndex[from := Backoff(c, from, r)]);
    CoreOpen(h, v, c);
    assert forall u: Id :: MatchOK(h, c, u) ==> MatchOK(h, d, u);
    CoreClose(h, v, d);
    k := SendAppendOK(h, cfg, v, d, from);
  }

  lemma HandleAppendReplyOK(h: Trail, cfg: Config, v: Id, c: State, from: Id, q: AppendRequest, r: AppendReply) returns (k: Trail)
    requires TrailInv(h) && CoreOK(h, v, c) && ConfigOK(h, cfg) && cfg.id == v && NoneConfirmed(c)
    requires MessageOK(h, TellAppend(from, v, q, r))
    ensures StepBy(h, k, v) && CoreOK(k, v, HandleAppendReply(cfg, c, from, q, r))
  {
    if r.term > c.term {
      k := StepDownOK(h, v, c, r.term);
    } else if !c.role.Leader? || q.term != c.term {
      k := h;
      StepByNothing(h, v);
    } else if r.success {
      AckFacts(h, v, c, from, q, r);
      NoteFreshAckOK(h, cfg, v, c, from, r.seqNo);
      k := SuccessOK(h, cfg, v, NoteFreshAck(cfg, c, from, r.seqNo), from, q.prevIndex + |q.entries|);
    } else {
      k := RejectOK(h, cfg, v, c, from, r);
    }
  }

  lemma InstalledNoted(h: Trail, v: Id, c: State, from: Id, idx: nat)
    requires TrailInv(h) && CoreOK(h, v, c) && c.role.Leader?
    requires from in h.book.members && Held(h.book, from, c.term, idx) && idx <= |Full(c)|
    ensures CoreOK(h, v, NoteInstalled(c, from, idx))
  {
    if idx > Get(c.matchIndex, from) {
      MatchedCore(h, v, c, from, idx);
    }
  }

  lemma FedOK(h: Trail, cfg: Config, v: Id, d: State, from: Id) returns (k: Trail)
    requires TrailInv(h) && CoreOK(h, v, d) && cfg.id == v && d.role.Leader? && from != v
    ensures StepBy(h, k, v) && CoreOK(k, v, if Get(d.nextIndex, from) <= LastIndex(d) then SendAppend(cfg, d, from) else d)
  {
    if Get(d.nextIndex, from) <= LastIndex(d) {
      k := SendAppendOK(h, cfg, v, d, from);
    } else {
      k := h;
      StepByNothing(h, v);
    }
  }

  lemma HandleSnapReplyOK(h: Trail, cfg: Config, v: Id, c: State, from: Id, q: SnapRequest, r: SnapReply) returns (k: Trail)
    requires TrailInv(h) && CoreOK(h, v, c) && ConfigOK(h, cfg) && cfg.id == v && NoneConfirmed(c)
    requires MessageOK(h, TellInstall(from, v, q, r))
    ensures StepBy(h, k, v) && CoreOK(k, v, HandleSnapReply(cfg, c, from, q, r))
  {
    if r.term > c.term {
      k := StepDownOK(h, v, c, r.term);
    } else if !c.role.Leader? || q.term != c.term {
      k := h;
      StepByNothing(h, v);
    } else {
      CoreOpen(h, v, c);
      InstalledNoted(h, v, c, from, q.snap.lastIndex);
      k := FedOK(h, cfg, v, NoteInstalled(c, from, q.snap.lastIndex), from);
    }
  }
}
