/** Every call on a core does to the trail what the ledger allows.

    For each function of RaftCore there is a lemma: from a core that fits the trail, it leads to a
    core that fits an extended trail, and everything it queues for sending fits too. */
module CoreSim {
  import opened RaftLog
  import opened RaftCore
  import opened Ledger
  import opened Trail

  predicate ConfigOK(h: Trail, cfg: Config)
  {
    && cfg.members == h.book.members && cfg.id in cfg.members
    && (forall p :: p in cfg.peers ==> p in cfg.members && p != cfg.id)
  }

  // ---- a core's view of its own log ----

  lemma Contiguous(h: Trail, v: Id, c: State)
    requires TrailInv(h) && v in h.book.members && h.book.log[v] == Full(c) && SnapshotOK(c.snap)
    ensures forall i :: 0 <= i < |c.entries| ==> c.entries[i].index == c.snap.lastIndex + 1 + i && 0 < c.entries[i].term
    ensures LastIndex(c) == |Full(c)| && LastLogTerm(c) == LastTerm(Full(c))
  {
    TrailOpen(h);
    assert NodeAt(h.book, v);
    var x := Full(c);
    forall i | 0 <= i < |c.entries|
      ensures c.entries[i].index == c.snap.lastIndex + 1 + i && 0 < c.entries[i].term
    {
      LogShape(h.book, x, c.snap.lastIndex + i);
      assert c.entries[i] == x[c.snap.lastIndex + i];
    }
  }

  /** At or above the snapshot a core sees the terms of the whole log; below it, nothing. */
  lemma TermAtIs(h: Trail, v: Id, c: State, i: nat)
    requires TrailInv(h) && v in h.book.members && h.book.log[v] == Full(c) && SnapshotOK(c.snap)
    ensures i == 0 || c.snap.lastIndex <= i ==> TermAt(c, i) == TermOf(Full(c), i)
    ensures 0 < i < c.snap.lastIndex ==> TermAt(c, i) == 0
    ensures 0 < i <= |Full(c)| ==> 0 < TermOf(Full(c), i)
  {
    TrailOpen(h);
    Contiguous(h, v, c);
    assert NodeAt(h.book, v);
    if 0 < i <= |Full(c)| {
      LogShape(h.book, Full(c), i - 1);
      if i == c.snap.lastIndex {
        assert Full(c)[i - 1] == c.snap.covered[i - 1];
      }
    }
  }

  // ---- extending the trail ----

  lemma CoveringStays(h: Trail, k: Trail, r: Reg)
    requires Covering(h, r) && Extends(h.book, k.book)
    ensures Covering(k, r)
  {
    if !(forall c :: c in r.commits ==> c.len <= r.index) {
      var t :| Deposed(h, r, t);
      assert Deposed(k, r, t);
    }
  }

  /** An extension of the book alone leaves the reads in order. */
  lemma ReadsStay(h: Trail, k: Trail)
    requires ReadsOK(h) && Extends(h.book, k.book) && k.sent == h.sent && k.acks == h.acks && k.regs == h.regs
    ensures ReadsOK(k) && Grows(h, k)
  {
    forall r
      ensures RegAt(k, r)
    {
      assert RegAt(h, r);
      if r in h.regs { CoveringStays(h, k, r); }
    }
    GrowthClose(h, k);
  }

  /** Member v moves to term t. */
  lemma TermStep(h: Trail, v: Id, t: nat) returns (k: Trail)
    requires TrailInv(h) && v in h.book.members && h.book.term[v] <= t
    ensures k == h.(book := Bump(h.book, v, t)) && StepBy(h, k, v)
  {
    TrailOpen(h);
    BumpOK(h.book, v, t);
    k := h.(book := Bump(h.book, v, t));
    ReadsStay(h, k);
    TrailClose(k);
    MovesClose(h, k, v);
  }

  lemma CandidacyStep(h: Trail, v: Id) returns (k: Trail)
    requires TrailInv(h) && v in h.book.members
    requires forall d :: d in h.book.camps && d.cand == v ==> d.term < h.book.term[v]
    requires forall b :: b in h.book.ballots && b.voter == v ==> b.term < h.book.term[v]
    ensures k == h.(book := Cast(Nominate(h.book, v), v, v)) && StepBy(h, k, v)
  {
    TrailOpen(h);
    NominateOK(h.book, v);
    var g := Nominate(h.book, v);
    CastOK(g, v, Campaign(v, g.term[v], g.log[v]));
    k := h.(book := Cast(g, v, v));
    ExtendsTrans(h.book, g, k.book);
    ReadsStay(h, k);
    TrailClose(k);
    MovesClose(h, k, v);
  }

  // ---- terms and votes ----

  lemma NoBallotYet(h: Trail, v: Id, t: nat)
    requires TrailInv(h) && v in h.book.members && h.book.term[v] < t
    ensures forall b :: b in h.book.ballots && b.voter == v ==> b.term < t
    ensures forall d :: d in h.book.camps && d.cand == v ==> d.term < t
    ensures t in h.book.won ==> h.book.won[t].leader != v
  {
    TrailOpen(h);
    forall b | b in h.book.ballots && b.voter == v
      ensures b.term < t
    {
      assert BallotAt(h.book, b);
    }
    forall d | d in h.book.camps && d.cand == v
      ensures d.term < t
    {
      assert CampAt(h.book, d);
    }
    assert WonAt(h.book, t);
  }

  lemma CursorsMove(h: Trail, k: Trail, c: State, d: State)
    requires CursorsOK(h, c) && Grows(h, k) && Full(d) == Full(c) && c.term <= d.term && d.snap == c.snap
    requires d.commitIndex == c.commitIndex && d.lastDelivered == c.lastDelivered && d.committed == c.committed
    ensures CursorsOK(k, d)
  {
    GrowthOpen(h, k);
    SafeStays(h.book, k.book, c.term, d.term, Full(c)[..c.commitIndex]);
    SafeStays(h.book, k.book, c.term, d.term, Full(c)[..c.lastDelivered]);
  }

  lemma StepDownOK(h: Trail, v: Id, c: State, t: nat) returns (k: Trail)
    requires TrailInv(h) && CoreOK(h, v, c) && c.term < t && NoneConfirmed(c)
    ensures StepBy(h, k, v) && CoreOK(k, v, StepDown(c, t)) && NoneConfirmed(StepDown(c, t))
  {
    CoreOpen(h, v, c);
    NoBallotYet(h, v, t);
    k := TermStep(h, v, t);
    var d := StepDown(c, t);
    Grew(h, k, v);
    CursorsMove(h, k, c, d);
    QueuesStay(h, k, c);
    assert forall o :: o in d.readOutcomes ==> !o.confirmed;
    CoreClose(k, v, d);
  }

  lemma StandTrail(h: Trail, v: Id, t: nat) returns (k: Trail)
    requires TrailInv(h) && v in h.book.members && t == h.book.term[v] + 1
    ensures StepBy(h, k, v) && k.book.term[v] == t && k.book.log[v] == h.book.log[v]
    ensures Campaign(v, t, h.book.log[v]) in k.book.camps && HasBallot(k.book, v, t, v)
    ensures forall b :: b in k.book.ballots && b.voter == v && b.term == t ==> b.cand == v
    ensures t in k.book.won ==> k.book.won[t].leader != v
  {
    NoBallotYet(h, v, t);
    var j := TermStep(h, v, t);
    k := CandidacyStep(j, v);
    StepByTrans(h, j, k, v);
    assert Ballot(v, t, v, h.book.log[v]) in k.book.ballots;
  }

  lemma AskedQueues(h: Trail, k: Trail, c: State, d: State, peers: seq<Id>, q: VoteRequest, camp: Campaign)
    requires QueuesOK(h, c) && Grows(h, k) && NoneConfirmed(c)
    requires d.committed == c.committed && d.readOutcomes == c.readOutcomes && d.restore == c.restore && d.snap == c.snap
    requires d.outbox == c.outbox + AskPeers(peers, q)
    requires q.preVote || (camp in k.book.camps && AsksFor(q, camp))
    ensures QueuesOK(k, d)
  {
    QueuesStay(h, k, c);
    assert AskOK(k, q);
    forall m | m in AskPeers(peers, q)
      ensures MessageOK(k, m)
    {
      assert m.AskVote? && m.vote == q;
    }
  }

  lemma StandOK(h: Trail, cfg: Config, v: Id, c: State) returns (k: Trail)
    requires TrailInv(h) && CoreOK(h, v, c) && ConfigOK(h, cfg) && cfg.id == v && !c.role.Leader? && NoneConfirmed(c)
    ensures StepBy(h, k, v) && CoreOK(k, v, Stand(cfg, c)) && NoneConfirmed(Stand(cfg, c))
  {
    CoreOpen(h, v, c);
    Contiguous(h, v, c);
    k := StandTrail(h, v, c.term + 1);
    var d := Stand(cfg, c);
    Grew(h, k, v);
    CursorsMove(h, k, c, d);
    AskedQueues(h, k, c, d, cfg.peers, VoteRequest(d.term, v, LastIndex(c), LastLogTerm(c), false),
                Campaign(v, d.term, Full(c)));
    CoreClose(k, v, d);
  }

  // ---- the leader: sending ----

  /** The leader v of its term stamps another append. */
  lemma SentStep(h: Trail, v: Id, n: nat) returns (k: Trail)
    requires TrailInv(h) && Leads(h.book, v)
    requires h.book.term[v] in h.sent ==> h.sent[h.book.term[v]] <= n
    ensures k == h.(sent := h.sent[h.book.term[v] := n]) && StepBy(h, k, v)
  {
    TrailOpen(h);
    k := h.(sent := h.sent[h.book.term[v] := n]);
    forall r
      ensures RegAt(k, r)
    {
      assert RegAt(h, r);
      if r in h.regs { CoveringStays(h, k, r); }
    }
    GrowthClose(h, k);
    TrailClose(k);
    MovesClose(h, k, v);
  }

  /** The entries of a request, in terms of the whole log. */
  lemma BatchIs(c: State, next: nat)
    requires |c.snap.covered| == c.snap.lastIndex < next <= |Full(c)| + 1
    ensures Batch(c, next) <= Full(c)[next - 1..] && (next <= |Full(c)| ==> Batch(c, next) != [])
  {
    var k := next - c.snap.lastIndex - 1;
    assert c.entries[k..] == Full(c)[next - 1..];
  }

  /** A request that carries a stretch of its sender's log. */
  predicate StretchOf(v: Id, c: State, q: AppendRequest)
  {
    && q.term == c.term && q.leader == v && c.snap.lastIndex <= q.prevIndex <= |Full(c)|
    && q.prevTerm == TermAt(c, q.prevIndex) && q.leaderCommit == c.commitIndex && q.seqNo == c.appendSeq + 1
    && q.entries <= Full(c)[q.prevIndex..] && (q.prevIndex < |Full(c)| ==> q.entries != [])
  }

  lemma StretchOK(h: Trail, v: Id, c: State, q: AppendRequest)
    requires TrailInv(h) && CoreOK(h, v, c) && c.role.Leader? && StretchOf(v, c, q)
    ensures AppendOK(h.(sent := h.sent[c.term := c.appendSeq + 1]), q)
  {
    CoreOpen(h, v, c);
    TermAtIs(h, v, c, q.prevIndex);
    LeadsSome(h, c.term);
    Stretch(Full(c), q.prevIndex, q.entries);
  }

  /** A leader's log is never empty: it starts with the no-op of its election. */
  lemma LeadsSome(h: Trail, t: nat)
    requires TrailInv(h) && t in h.book.lead
    ensures t in h.book.won && 0 < |h.book.lead[t]|
  {
    TrailOpen(h);
    assert LeadAt(h.book, t);
  }

  lemma Stretch(x: Log, p: nat, es: Log)
    requires p <= |x| && es <= x[p..]
    ensures p + |es| <= |x| && es == x[p..p + |es|]
  {
  }

  /** A leader that has only sent something still fits. */
  lemma SentCore(h: Trail, k: Trail, v: Id, c: State, d: State, m: Message)
    requires CoreOK(h, v, c) && c.role.Leader? && Grows(h, k) && k.book == h.book && k.regs == h.regs
    requires d == c.(appendSeq := d.appendSeq, outbox := c.outbox + [m])
    requires c.term in k.sent && k.sent[c.term] == d.appendSeq
    requires MessageOK(k, m) && CarriesOwn(c, m)
    ensures CoreOK(k, v, d)
  {
    CoreOpen(h, v, c);
    QueuesStay(h, k, c);
    PendingsStay(h, k, c.term, c.pendingReads);
    forall p: Id
      ensures MatchOK(k, d, p)
    {
      assert MatchOK(h, c, p);
    }
    CursorsStay(h, k, c);
    CoreClose(k, v, d);
  }

  /** A leader queues one more stretch of its log. */
  lemma SendStretchOK(h: Trail, v: Id, c: State, peer: Id, q: AppendRequest) returns (k: Trail)
    requires TrailInv(h) && CoreOK(h, v, c) && c.role.Leader? && peer != v
    requires StretchOf(v, c, q)
    ensures StepBy(h, k, v) && k.book == h.book && k.acks == h.acks
    ensures CoreOK(k, v, c.(appendSeq := c.appendSeq + 1, outbox := c.outbox + [AskAppend(peer, q)]))
  {
    CoreOpen(h, v, c);
    k := SentStep(h, v, c.appendSeq + 1);
    StretchOK(h, v, c, q);
    Grew(h, k, v);
    SentCore(h, k, v, c, c.(appendSeq := c.appendSeq + 1, outbox := c.outbox + [AskAppend(peer, q)]), AskAppend(peer, q));
  }

  lemma SendBatchOK(h: Trail, cfg: Config, v: Id, c: State, peer: Id, next: nat) returns (k: Trail)
    requires TrailInv(h) && CoreOK(h, v, c) && cfg.id == v && c.role.Leader? && peer != v
    requires c.snap.lastIndex < next <= |Full(c)| + 1
    ensures StepBy(h, k, v) && k.book == h.book && k.acks == h.acks
    ensures CoreOK(k, v, c.(appendSeq := c.appendSeq + 1, outbox := c.outbox + [AskAppend(peer, AppendFor(cfg, c, next))]))
  {
    BatchIs(c, next);
    var q := AppendRequest(c.term, v, next - 1, TermAt(c, next - 1), Batch(c, next), c.commitIndex, c.appendSeq + 1);
    k := SendStretchOK(h, v, c, peer, q);
  }

  lemma SendSnapshotOK(h: Trail, v: Id, c: State, peer: Id)
    requires TrailInv(h) && CoreOK(h, v, c) && c.role.Leader? && peer != v
    ensures CoreOK(h, v, c.(outbox := c.outbox + [AskInstall(peer, SnapRequest(c.term, v, c.snap))]))
  {
    CoreOpen(h, v, c);
    CoreOnDisk(h, v, c);
    StepByNothing(h, v);
    Grew(h, h, v);
    var q := SnapRequest(c.term, v, c.snap);
    assert InstallOK(h, q);
    SentCore(h, h, v, c, c.(outbox := c.outbox + [AskInstall(peer, q)]), AskInstall(peer, q));
  }

  lemma NextBounded(h: Trail, v: Id, c: State, peer: Id)
    requires CoreOK(h, v, c) && c.role.Leader?
    ensures Get(c.nextIndex, peer) <= |Full(c)| + 1 && c.term in h.sent && h.sent[c.term] == c.appendSeq
  {
    CoreOpen(h, v, c);
  }

  lemma SendAppendOK(h: Trail, cfg: Config, v: Id, c: State, peer: Id) returns (k: Trail)
    requires TrailInv(h) && CoreOK(h, v, c) && cfg.id == v && c.role.Leader? && peer != v
    ensures StepBy(h, k, v) && CoreOK(k, v, SendAppend(cfg, c, peer))
    ensures k.book == h.book && k.acks == h.acks
  {
    NextBounded(h, v, c, peer);
    var next := if Get(c.nextIndex, peer) == 0 then 1 else c.nextIndex[peer];
    if next <= c.snap.lastIndex {
      k := h;
      StepByNothing(h, v);
      SendSnapshotOK(h, v, c, peer);
    } else {
      k := SendBatchOK(h, cfg, v, c, peer, next);
    }
  }

  lemma {:induction false} BroadcastOK(h: Trail, cfg: Config, v: Id, c: State, peers: seq<Id>) returns (k: Trail)
    requires TrailInv(h) && CoreOK(h, v, c) && cfg.id == v && c.role.Leader? && v !in peers
    ensures StepBy(h, k, v) && CoreOK(k, v, BroadcastTo(cfg, c, peers))
    ensures k.book == h.book && k.acks == h.acks
  {
    if peers == [] {
      k := h;
      StepByNothing(h, v);
    } else {
      var j := BroadcastOK(h, cfg, v, c, peers[..|peers| - 1]);
      k := SendAppendOK(j, cfg, v, BroadcastTo(cfg, c, peers[..|peers| - 1]), peers[|peers| - 1]);
      StepByTrans(h, j, k, v);
    }
  }

  // ---- the leader: committing ----

  lemma AllSettled(h: Trail, v: Id, c: State)
    requires TrailInv(h) && CoreOK(h, v, c) && c.lastDelivered <= c.commitIndex
    ensures forall e :: e in Full(c)[c.lastDelivered..c.commitIndex] ==> Settled(h.book, e)
  {
    CoreOpen(h, v, c);
    forall e | e in Full(c)[c.lastDelivered..c.commitIndex]
      ensures Settled(h.book, e)
    {
      var i :| c.lastDelivered <= i < c.commitIndex && Full(c)[i] == e;
      SafeSettles(h, v, c, i);
    }
  }

  lemma Adjoin(x: Log, a: nat, b: nat, c: nat)
    requires a <= b <= c <= |x|
    ensures x[a..b] + x[b..c] == x[a..c]
  {
  }

  lemma UncoveredPart(covered: Log, entries: Log, l: nat, m: nat)
    requires |covered| <= l <= m <= |covered + entries|
    ensures entries[l - |covered|..m - |covered|] == (covered + entries)[l..m]
  {
    var y, z := entries[l - |covered|..m - |covered|], (covered + entries)[l..m];
    assert |y| == |z| && forall i :: 0 <= i < |y| ==> y[i] == z[i];
  }

  /** Delivering takes exactly the entries above the last delivered one, up to the commit index. */
  lemma DeliverIs(c: State)
    requires |c.snap.covered| == c.snap.lastIndex <= c.lastDelivered && c.commitIndex <= |Full(c)| && Delivered(c) && !c.halted
    requires |c.entries| > 0 ==> c.entries[0].index == c.snap.lastIndex + 1
    ensures var d := DeliverCommitted(c);
            && d == c.(committed := d.committed, lastDelivered := d.lastDelivered)
            && d.lastDelivered == (if c.lastDelivered < c.commitIndex then c.commitIndex else c.lastDelivered)
            && d.committed == c.committed + Full(c)[c.lastDelivered..d.lastDelivered] && Delivered(d)
  {
    var x := Full(c);
    if c.lastDelivered < c.commitIndex {
      UncoveredPart(c.snap.covered, c.entries, c.lastDelivered, c.commitIndex);
      Adjoin(x, c.lastDelivered - |c.committed|, c.lastDelivered, c.commitIndex);
    }
  }

  lemma DeliverOK(h: Trail, v: Id, c: State)
    requires TrailInv(h) && CoreOK(h, v, c)
    ensures CoreOK(h, v, DeliverCommitted(c))
    ensures DeliverCommitted(c) == c.(committed := DeliverCommitted(c).committed, lastDelivered := DeliverCommitted(c).lastDelivered)
  {
    CoreOpen(h, v, c);
    Contiguous(h, v, c);
    DeliverIs(c);
    DeliveredCore(h, v, c, DeliverCommitted(c));
  }

  lemma DeliveredCore(h: Trail, v: Id, c: State, d: State)
    requires TrailInv(h) && CoreOK(h, v, c) && d == c.(committed := d.committed, lastDelivered := d.lastDelivered)
    requires d.lastDelivered == if c.lastDelivered < c.commitIndex then c.commitIndex else c.lastDelivered
    requires d.committed == c.committed + Full(c)[c.lastDelivered..d.lastDelivered] && Delivered(d)
    ensures CoreOK(h, v, d)
  {
    CoreOpen(h, v, c);
    if c.lastDelivered < c.commitIndex {
      AllSettled(h, v, c);
    }
    assert c.role.Leader? ==> forall p: Id :: MatchOK(h, c, p) ==> MatchOK(h, d, p);
    CoreClose(h, v, d);
  }

  lemma SafeSettles(h: Trail, v: Id, c: State, i: nat)
    requires TrailInv(h) && CoreOK(h, v, c) && i < c.commitIndex
    ensures Settled(h.book, Full(c)[i])
  {
    TrailOpen(h);
    CoreOpen(h, v, c);
    var p := Full(c)[..c.commitIndex];
    var m :| Covers(h.book, c.term, p, m);
    assert CommitAt(h.book, m) && NodeAt(h.book, v);
    LogShape(h.book, Full(c), i);
    assert Full(c)[i] == p[i] == h.book.lead[m.term][i];
    assert SettledBy(h.book, Full(c)[i], m);
  }

  lemma {:induction false} ScanFinds(cfg: Config, s: State, n: nat)
    ensures var r := ScanCommit(cfg, s, n);
            r == s.commitIndex || (s.commitIndex < r <= n && TermAt(s, r) == s.term && |Holders(cfg, s, r)| >= Majority(cfg.members))
  {
    if !(n <= s.commitIndex || TermAt(s, n) != s.term || |Holders(cfg, s, n)| >= Majority(cfg.members)) {
      ScanFinds(cfg, s, n - 1);
    }
  }

  /** What maybeAdvanceCommit counts is a majority in the ledger's sense. */
  lemma CountedIsChosen(h: Trail, cfg: Config, v: Id, c: State, n: nat)
    requires TrailInv(h) && CoreOK(h, v, c) && ConfigOK(h, cfg) && cfg.id == v && c.role.Leader?
    requires c.commitIndex < n <= |Full(c)| && TermAt(c, n) == c.term && |Holders(cfg, c, n)| >= Majority(cfg.members)
    ensures Chosen(h.book, c.term, n)
  {
    TrailOpen(h);
    CoreOpen(h, v, c);
    var q := Holders(cfg, c, n);
    TermAtIs(h, v, c, n);
    assert LeadAt(h.book, c.term);
    forall p | p in q
      ensures Accept(p, c.term, n) in h.book.accepts
    {
      assert MatchOK(h, c, p);
    }
    assert Quorum(h.book.members, q) && AcceptedBy(h.book, q, c.term, n);
  }

  lemma SettleStep(h: Trail, v: Id, n: nat) returns (k: Trail)
    requires TrailInv(h) && Leads(h.book, v) && Chosen(h.book, h.book.term[v], n)
    ensures k == h.(book := Settle(h.book, h.book.term[v], n)) && StepBy(h, k, v)
  {
    TrailOpen(h);
    SettleOK(h.book, h.book.term[v], n);
    k := h.(book := Settle(h.book, h.book.term[v], n));
    ReadsStay(h, k);
    TrailClose(k);
    MovesClose(h, k, v);
  }

  lemma CommittedCore(h: Trail, k: Trail, v: Id, c: State, n: nat)
    requires TrailInv(h) && CoreOK(h, v, c) && c.role.Leader? && c.commitIndex < n <= |Full(c)|
    requires k == h.(book := Settle(h.book, c.term, n)) && StepBy(h, k, v) && c.term in k.book.lead
    ensures CoreOK(k, v, c.(commitIndex := n))
  {
    CoreOpen(h, v, c);
    Grew(h, k, v);
    var d := c.(commitIndex := n);
    assert Covers(k.book, c.term, Full(c)[..n], Commit(c.term, n));
    CursorsStay(h, k, c);
    QueuesStay(h, k, c);
    PendingsStay(h, k, c.term, c.pendingReads);
    forall p: Id
      ensures MatchOK(k, d, p)
    {
      assert MatchOK(h, c, p);
    }
    CoreClose(k, v, d);
  }

  lemma MaybeAdvanceOK(h: Trail, cfg: Config, v: Id, c: State) returns (k: Trail)
    requires TrailInv(h) && CoreOK(h, v, c) && ConfigOK(h, cfg) && cfg.id == v && c.role.Leader?
    ensures StepBy(h, k, v) && CoreOK(k, v, MaybeAdvanceCommit(cfg, c))
    ensures MaybeAdvanceCommit(cfg, c).role.Leader? && MaybeAdvanceCommit(cfg, c).term == c.term
  {
    CoreOpen(h, v, c);
    Contiguous(h, v, c);
    var n := ScanCommit(cfg, c, LastIndex(c));
    ScanFinds(cfg, c, LastIndex(c));
    if n == c.commitIndex {
      k := h;
      StepByNothing(h, v);
    } else {
      CountedIsChosen(h, cfg, v, c, n);
      k := SettleStep(h, v, n);
      CommittedCore(h, k, v, c, n);
      DeliverOK(k, v, c.(commitIndex := n));
    }
  }

  // ---- winning an election ----

  lemma ElectStep(h: Trail, v: Id, q: set<Id>, e: Entry, n: nat) returns (k: Trail)
    requires TrailInv(h) && CanElect(h.book, v, q, e)
    ensures k == h.(book := Elect(h.book, v, q, e), sent := h.sent[h.book.term[v] := n]) && StepBy(h, k, v)
  {
    TrailOpen(h);
    var t := h.book.term[v];
    ElectOK(h.book, v, q, e);
    var j := h.(book := Elect(h.book, v, q, e));
    ReadsStay(h, j);
    TrailClose(j);
    MovesClose(h, j, v);
    k := SentStep(j, v, n);
    StepByTrans(h, j, k, v);
  }

  /** A candidate's majority is enough for the ledger to record its election. */
  lemma MayElect(h: Trail, cfg: Config, v: Id, c: State, e: Entry)
    requires TrailInv(h) && CoreOK(h, v, c) && ConfigOK(h, cfg) && cfg.id == v
    requires c.role.Candidate? && |c.votes| >= Majority(cfg.members)
    requires e.term == c.term && e.index == |Full(c)| + 1
    ensures CanElect(h.book, v, c.votes, e)
  {
    TrailOpen(h);
    CoreOpen(h, v, c);
    if c.term in h.book.lead {
      OneLeaderPerTerm(h.book, c.term, v, c.votes);
      assert false;
    }
  }

  /** The facts a fresh leader starts from. */
  lemma FreshTerm(h: Trail, t: nat)
    requires TrailInv(h) && t !in h.book.lead
    ensures t !in h.book.won && t !in h.sent
    ensures forall m :: m in h.book.commits ==> m.term != t
    ensures forall r :: r in h.regs ==> r.term != t
  {
    TrailOpen(h);
    forall m | m in h.book.commits
      ensures m.term != t
    {
      assert CommitAt(h.book, m);
    }
    forall r | r in h.regs
      ensures r.term != t
    {
      assert RegAt(h, r);
    }
  }

  lemma FreshLeader(h: Trail, k: Trail, cfg: Config, v: Id, c: State, e: Entry)
    requires TrailInv(h) && CoreOK(h, v, c) && ConfigOK(h, cfg) && cfg.id == v && c.term !in h.book.lead
    requires e == Entry(c.term, |Full(c)| + 1, KIND_NOOP, []) && LastIndex(c) == |Full(c)|
    requires k == h.(book := Elect(h.book, v, c.votes, e), sent := h.sent[c.term := c.appendSeq])
    ensures LeaderOK(k, v, BecomeLeader(cfg, c)) && VoteLinked(k, v, BecomeLeader(cfg, c))
    ensures Full(BecomeLeader(cfg, c)) == Full(c) + [e]
  {
    CoreOpen(h, v, c);
    FreshTerm(h, c.term);
    assert Full(BecomeLeader(cfg, c)) == Full(c) + [e];
  }

  lemma BecomeLeaderOK(h: Trail, cfg: Config, v: Id, c: State) returns (k: Trail)
    requires TrailInv(h) && CoreOK(h, v, c) && ConfigOK(h, cfg) && cfg.id == v
    requires c.role.Candidate? && |c.votes| >= Majority(cfg.members)
    ensures StepBy(h, k, v) && CoreOK(k, v, BecomeLeader(cfg, c))
  {
    CoreOpen(h, v, c);
    TrailOpen(h);
    Contiguous(h, v, c);
    var d, x := BecomeLeader(cfg, c), Full(c);
    var e := Entry(c.term, |x| + 1, KIND_NOOP, []);
    MayElect(h, cfg, v, c, e);
    k := ElectStep(h, v, c.votes, e, c.appendSeq);
    FreshLeader(h, k, cfg, v, c, e);
    Grew(h, k, v);
    LeaderCursors(h, k, c, d);
    QueuesStay(h, k, c);
    CoreClose(k, v, d);
  }

  /** Appending leaves the cursors where they were. */
  lemma LeaderCursors(h: Trail, k: Trail, c: State, d: State)
    requires CursorsOK(h, c) && Grows(h, k) && Full(c) <= Full(d) && d.snap == c.snap && d.term == c.term
    requires d.commitIndex == c.commitIndex && d.lastDelivered == c.lastDelivered && d.committed == c.committed
    ensures CursorsOK(k, d)
  {
    CursorsStay(h, k, c);
    assert Full(d)[..c.commitIndex] == Full(c)[..c.commitIndex];
    assert Full(d)[..c.lastDelivered] == Full(c)[..c.lastDelivered];
  }

  /** Announce a grown log and count at once: what winning an election and proposing end with. */
  lemma AnnounceOK(h: Trail, cfg: Config, v: Id, c: State) returns (k: Trail)
    requires TrailInv(h) && CoreOK(h, v, c) && ConfigOK(h, cfg) && cfg.id == v && c.role.Leader?
    ensures StepBy(h, k, v) && CoreOK(k, v, MaybeAdvanceCommit(cfg, BroadcastAppends(cfg, c)))
  {
    var j := BroadcastOK(h, cfg, v, c, cfg.peers);
    k := MaybeAdvanceOK(j, cfg, v, BroadcastAppends(cfg, c));
    StepByTrans(h, j, k, v);
  }

  lemma MaybeWinOK(h: Trail, cfg: Config, v: Id, c: State) returns (k: Trail)
    requires TrailInv(h) && CoreOK(h, v, c) && ConfigOK(h, cfg) && cfg.id == v
    ensures StepBy(h, k, v) && CoreOK(k, v, MaybeWinElection(cfg, c))
  {
    if !c.role.Candidate? || |c.votes| < Majority(cfg.members) {
      k := h;
      StepByNothing(h, v);
    } else {
      var i := BecomeLeaderOK(h, cfg, v, c);
      k := AnnounceOK(i, cfg, v, BecomeLeader(cfg, c));
      StepByTrans(h, i, k, v);
    }
  }

  lemma StartCampaignOK(h: Trail, cfg: Config, v: Id, c: State) returns (k: Trail)
    requires TrailInv(h) && CoreOK(h, v, c) && ConfigOK(h, cfg) && cfg.id == v && !c.role.Leader? && NoneConfirmed(c)
    ensures StepBy(h, k, v) && CoreOK(k, v, StartCampaign(cfg, c))
  {
    var j := StandOK(h, cfg, v, c);
    k := MaybeWinOK(j, cfg, v, Stand(cfg, c));
    StepByTrans(h, j, k, v);
  }

  /** The pre-vote tally is not part of what the trail describes. */
  lemma PreVotesFree(h: Trail, v: Id, c: State, p: Option<set<Id>>)
    requires CoreOK(h, v, c)
    ensures CoreOK(h, v, c.(preVotes := p))
  {
    CoreOpen(h, v, c);
    var d := c.(preVotes := p);
    assert c.role.Leader? ==> forall u: Id :: MatchOK(h, c, u) ==> MatchOK(h, d, u);
    CoreClose(h, v, d);
  }

  lemma MaybeWinPreVoteOK(h: Trail, cfg: Config, v: Id, c: State) returns (k: Trail)
    requires TrailInv(h) && CoreOK(h, v, c) && ConfigOK(h, cfg) && cfg.id == v && !c.role.Leader? && NoneConfirmed(c)
    ensures StepBy(h, k, v) && CoreOK(k, v, MaybeWinPreVote(cfg, c))
  {
    if c.preVotes.None? || |c.preVotes.value| < Majority(cfg.members) {
      k := h;
      StepByNothing(h, v);
    } else {
      PreVotesFree(h, v, c, None);
      k := StartCampaignOK(h, cfg, v, c.(preVotes := None));
    }
  }

  lemma ProbeOK(h: Trail, cfg: Config, v: Id, c: State)
    requires TrailInv(h) && CoreOK(h, v, c) && cfg.id == v && !c.role.Leader? && NoneConfirmed(c)
    ensures CoreOK(h, v, Probe(cfg, c)) && NoneConfirmed(Probe(cfg, c)) && !Probe(cfg, c).role.Leader?
  {
    CoreOpen(h, v, c);
    StepByNothing(h, v);
    Grew(h, h, v);
    var req := VoteRequest(c.term + 1, v, LastIndex(c), LastLogTerm(c), true);
    AskedQueues(h, h, c, Probe(cfg, c), cfg.peers, req, Campaign(v, 0, []));
    CoreClose(h, v, Probe(cfg, c));
  }

  lemma StartPreCampaignOK(h: Trail, cfg: Config, v: Id, c: State) returns (k: Trail)
    requires TrailInv(h) && CoreOK(h, v, c) && ConfigOK(h, cfg) && cfg.id == v && !c.role.Leader? && NoneConfirmed(c)
    ensures StepBy(h, k, v) && CoreOK(k, v, StartPreCampaign(cfg, c))
  {
    ProbeOK(h, cfg, v, c);
    k := MaybeWinPreVoteOK(h, cfg, v, Probe(cfg, c));
  }
}
