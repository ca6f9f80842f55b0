/** What a running cluster's nodes and messages say about the run so far.

    A trail is a book together with the history that reads need. `CoreOK` ties one core to the
    trail and `MessageOK` ties one message to it; neither mentions any other node or message, so a
    step on one node only has to re-establish them for that node and for what it sent. */
module Trail {
  import opened RaftLog
  import opened RaftCore
  import opened Ledger

  /** A member answered an append of the given term and sequence number with success. */
  datatype Ack = Ack(from: Id, term: nat, seqNo: nat)

  /** A read registered with the leader of a term: which members had already moved past that term,
      and what had been committed anywhere, at that moment. */
  datatype Reg = Reg(term: nat, id: nat, client: nat, minSeq: nat, index: nat, deposed: set<Id>, commits: set<Commit>)

  datatype Trail = Trail(book: Book, sent: map<nat, nat>, acks: set<Ack>, regs: set<Reg>)

  // ---- reads ----

  /** The read index covers everything that had been committed, or the reader was already deposed. */
  ghost predicate Covering(h: Trail, r: Reg)
  {
    (forall c :: c in r.commits ==> c.len <= r.index) || exists t :: Deposed(h, r, t)
  }

  ghost predicate Deposed(h: Trail, r: Reg, t: nat)
  {
    t in h.book.won && h.book.won[t].voters <= r.deposed
  }

  ghost predicate RegAt(h: Trail, r: Reg)
  {
    r in h.regs ==>
      && r.term in h.book.won
      && (forall u :: u in r.deposed ==> u in h.book.term && r.term < h.book.term[u])
      && (forall a :: a in h.acks && a.term == r.term && r.minSeq <= a.seqNo ==> a.from !in r.deposed)
      && Covering(h, r)
  }

  ghost predicate ReadsOK(h: Trail)
  {
    && (forall r {:trigger RegAt(h, r)} :: RegAt(h, r))
    && (forall r, q :: r in h.regs && q in h.regs && r.term == q.term && r.id == q.id ==> r == q)
    && (forall a :: a in h.acks ==> a.term in h.sent && a.seqNo <= h.sent[a.term])
    && (forall t :: t in h.sent ==> t in h.book.won)
  }

  // The invariants of trails, cores and steps are lists of parts, quantified over: a proof that only
  // hands an invariant on never looks inside it, and one that needs its content opens it by a lemma.

  datatype TrailPart = BookPart | ReadPart | NamePart

  ghost predicate TrailHas(part: TrailPart, h: Trail)
  {
    match part
    case BookPart => Inv(h.book)
    case ReadPart => ReadsOK(h)
    case NamePart => NO_NODE !in h.book.members
  }

  ghost predicate TrailInv(h: Trail)
  {
    Shape(h.book) && forall part {:trigger TrailHas(part, h)} :: TrailHas(part, h)
  }

  lemma TrailOpen(h: Trail)
    requires TrailInv(h)
    ensures Inv(h.book) && ReadsOK(h) && NO_NODE !in h.book.members
  {
    assert TrailHas(BookPart, h) && TrailHas(ReadPart, h) && TrailHas(NamePart, h);
  }

  lemma TrailClose(h: Trail)
    requires Inv(h.book) && ReadsOK(h) && NO_NODE !in h.book.members
    ensures TrailInv(h)
  {
  }

  // ---- messages ----

  /** A request built by the leader of its term out of that leader's log. */
  ghost predicate AppendOK(h: Trail, q: AppendRequest)
  {
    var g, n := h.book, q.prevIndex + |q.entries|;
    && q.term in g.lead && q.term in g.won && g.won[q.term].leader == q.leader
    && 0 < n <= |g.lead[q.term]|
    && q.entries == g.lead[q.term][q.prevIndex..n]
    && q.prevTerm == TermOf(g.lead[q.term], q.prevIndex)
    && q.leaderCommit <= |g.lead[q.term]| && Safe(g, q.term, g.lead[q.term][..q.leaderCommit])
    && q.term in h.sent && q.seqNo <= h.sent[q.term]
  }

  ghost predicate SnapshotOK(snap: Snapshot)
  {
    |snap.covered| == snap.lastIndex && snap.lastTerm == LastTerm(snap.covered)
  }

  ghost predicate InstallOK(h: Trail, q: SnapRequest)
  {
    var g := h.book;
    && q.term in g.lead && q.term in g.won && g.won[q.term].leader == q.leader
    && SnapshotOK(q.snap) && q.snap.covered <= g.lead[q.term] && Safe(g, q.term, q.snap.covered)
  }

  ghost predicate AsksFor(q: VoteRequest, c: Campaign)
  {
    c.cand == q.candidate && c.term == q.term && |c.log| == q.lastIndex && LastTerm(c.log) == q.lastTerm
  }

  ghost predicate AskOK(h: Trail, q: VoteRequest)
  {
    q.preVote || exists c :: c in h.book.camps && AsksFor(q, c)
  }

  ghost predicate MessageOK(h: Trail, m: Message)
  {
    var g := h.book;
    match m
    case AskVote(_, q) => AskOK(h, q)
    case AskAppend(to, q) => AppendOK(h, q) && to != q.leader
    case AskInstall(to, q) => InstallOK(h, q) && to != q.leader
    case AskTimeoutNow(to, term, leader) => term in g.won && g.won[term].leader == leader && to != leader
    case TellVote(from, to, q, r) =>
      from in g.members && to == q.candidate && (q.preVote || (r.granted ==> HasBallot(g, from, q.term, q.candidate)))
    case TellAppend(from, to, q, r) =>
      && from in g.members && from != q.leader == to && AppendOK(h, q) && r.seqNo == q.seqNo
      && (r.success ==> Held(g, from, q.term, q.prevIndex + |q.entries|) && Ack(from, q.term, q.seqNo) in h.acks)
    case TellInstall(from, to, q, r) =>
      && from in g.members && from != q.leader == to && InstallOK(h, q) && q.term <= r.term
      && (r.term == q.term ==> Held(g, from, q.term, q.snap.lastIndex))
  }

  // ---- cores ----

  ghost predicate Linked(h: Trail, v: Id, c: State)
  {
    && v in h.book.members && Shape(h.book)
    && h.book.term[v] == c.term && h.book.log[v] == Full(c)
    && SnapshotOK(c.snap) && !c.halted
    && c.commitIndex <= |Full(c)| && c.snap.lastIndex <= c.lastDelivered <= |Full(c)|
  }

  ghost predicate VoteLinked(h: Trail, v: Id, c: State)
  {
    && (c.votedFor != NO_NODE ==> HasBallot(h.book, v, c.term, c.votedFor))
    && (forall b :: b in h.book.ballots && b.voter == v && b.term == c.term ==> b.cand == c.votedFor)
  }

  ghost predicate CandidateOK(h: Trail, v: Id, c: State)
  {
    c.role.Candidate? ==>
      && 0 < c.term && Campaign(v, c.term, Full(c)) in h.book.camps
      && c.votes <= h.book.members
      && (forall u :: u in c.votes ==> HasBallot(h.book, u, c.term, v))
      && (c.term in h.book.won ==> h.book.won[c.term].leader != v)
  }

  ghost predicate MatchOK(h: Trail, c: State, p: Id)
  {
    p in c.matchIndex ==> p in h.book.members && Held(h.book, p, c.term, c.matchIndex[p])
  }

  ghost predicate LeaderOK(h: Trail, v: Id, c: State)
  {
    c.role.Leader? ==>
      && Leads(h.book, v) && Held(h.book, v, c.term, |Full(c)|)
      && (forall p :: p in c.nextIndex ==> c.nextIndex[p] <= |Full(c)| + 1)
      && (forall p: Id {:trigger MatchOK(h, c, p)} :: MatchOK(h, c, p))
      && (forall m :: m in h.book.commits && m.term == c.term ==> m.len <= c.commitIndex)
      && c.term in h.sent && h.sent[c.term] == c.appendSeq
      && (forall r :: r in h.regs && r.term == c.term ==> r.id <= c.readCounter)
  }

  ghost predicate CursorsOK(h: Trail, c: State)
  {
    && c.commitIndex <= |Full(c)| && Safe(h.book, c.term, Full(c)[..c.commitIndex])
    && c.snap.lastIndex <= c.lastDelivered <= |Full(c)| && Safe(h.book, c.term, Full(c)[..c.lastDelivered])
    && (c.commitIndex == 0 ==> c.lastDelivered == 0)
    && Delivered(c)
  }

  /** The entries waiting to be applied are the last ones delivered. */
  predicate Delivered(c: State)
  {
    && |c.committed| <= c.lastDelivered <= |Full(c)|
    && c.committed == Full(c)[c.lastDelivered - |c.committed|..c.lastDelivered]
  }

  ghost predicate Tracks(h: Trail, term: nat, p: PendingRead, r: Reg)
  {
    r in h.regs && r.term == term && r.id == p.id && r.minSeq == p.minSeq && r.index == p.index && r.deposed !! p.acks
  }

  /** A pending read stands for a registered one, and only members still in the term have acked it. */
  ghost predicate PendingOK(h: Trail, term: nat, p: PendingRead)
  {
    p.acks <= h.book.members && exists r :: Tracks(h, term, p, r)
  }

  ghost predicate Proves(h: Trail, term: nat, o: ReadOutcome, r: Reg)
  {
    r in h.regs && r.term == term && r.id == o.id && r.index == o.index && forall c :: c in r.commits ==> c.len <= r.index
  }

  ghost predicate OutcomeOK(h: Trail, term: nat, o: ReadOutcome)
  {
    o.confirmed ==> exists r :: Proves(h, term, o, r)
  }

  ghost predicate PendingsOK(h: Trail, term: nat, ps: seq<PendingRead>)
  {
    forall p :: p in ps ==> PendingOK(h, term, p)
  }

  ghost predicate OutcomesOK(h: Trail, term: nat, os: seq<ReadOutcome>)
  {
    forall o :: o in os ==> OutcomeOK(h, term, o)
  }

  ghost predicate SettledBy(g: Book, e: Entry, c: Commit)
  {
    && c in g.commits && 0 < e.index <= c.len && c.term in g.lead && c.len <= |g.lead[c.term]|
    && g.lead[c.term][e.index - 1] == e
  }

  /** e was committed, at its index, by some leader. */
  ghost predicate Settled(g: Book, e: Entry)
  {
    exists c :: SettledBy(g, e, c)
  }

  /** A snapshot waiting to be sent is the sender's current one. */
  predicate CarriesOwn(c: State, m: Message)
  {
    m.AskInstall? ==> m.ins.snap == c.snap
  }

  ghost predicate QueuesOK(h: Trail, c: State)
  {
    && (forall m :: m in c.outbox ==> MessageOK(h, m) && CarriesOwn(c, m))
    && (forall e :: e in c.committed ==> Settled(h.book, e))
    && OutcomesOK(h, c.term, c.readOutcomes)
    && (c.restore.Some? ==> c.restore.value == c.snap.image)
  }

  /** No confirmed read is waiting to be drained. */
  predicate NoneConfirmed(c: State)
  {
    forall o :: o in c.readOutcomes ==> !o.confirmed
  }

  /** Only a leader has reads in progress. */
  ghost predicate ReadersOnly(h: Trail, c: State)
  {
    && (c.pendingReads != [] ==> c.role.Leader?) && PendingsOK(h, c.term, c.pendingReads)
    && (NoneConfirmed(c) || c.role.Leader?)
  }

  datatype CorePart = VotePart | CandidatePart | LeaderPart | CursorPart | PendingPart | QueuePart

  ghost predicate CoreHas(part: CorePart, h: Trail, v: Id, c: State)
  {
    match part
    case VotePart => VoteLinked(h, v, c)
    case CandidatePart => CandidateOK(h, v, c)
    case LeaderPart => LeaderOK(h, v, c)
    case CursorPart => CursorsOK(h, c)
    case PendingPart => ReadersOnly(h, c)
    case QueuePart => QueuesOK(h, c)
  }

  ghost predicate CoreOK(h: Trail, v: Id, c: State)
  {
    Linked(h, v, c) && forall part {:trigger CoreHas(part, h, v, c)} :: CoreHas(part, h, v, c)
  }

  lemma CoreOpen(h: Trail, v: Id, c: State)
    requires CoreOK(h, v, c)
    ensures VoteLinked(h, v, c) && CandidateOK(h, v, c) && LeaderOK(h, v, c) && CursorsOK(h, c)
    ensures ReadersOnly(h, c) && QueuesOK(h, c)
  {
    assert CoreHas(VotePart, h, v, c) && CoreHas(CandidatePart, h, v, c) && CoreHas(LeaderPart, h, v, c);
    assert CoreHas(CursorPart, h, v, c) && CoreHas(PendingPart, h, v, c) && CoreHas(QueuePart, h, v, c);
  }

  lemma CoreClose(h: Trail, v: Id, c: State)
    requires v in h.book.members && Shape(h.book) && h.book.term[v] == c.term && h.book.log[v] == Full(c)
    requires SnapshotOK(c.snap) && !c.halted
    requires VoteLinked(h, v, c) && CandidateOK(h, v, c) && LeaderOK(h, v, c) && CursorsOK(h, c)
    requires ReadersOnly(h, c) && QueuesOK(h, c)
    ensures CoreOK(h, v, c)
  {
  }

  /** What a crashed or halted node still holds. */
  ghost predicate DiskOK(h: Trail, v: Id, c: State)
  {
    && v in h.book.members && Shape(h.book)
    && h.book.term[v] == c.term && h.book.log[v] == Full(c)
    && SnapshotOK(c.snap) && Safe(h.book, c.term, c.snap.covered) && VoteLinked(h, v, c)
  }

  /** Nothing is waiting to be drained. */
  predicate Quiet(c: State)
  {
    c.outbox == [] && c.committed == [] && c.readOutcomes == [] && c.restore.None?
  }

  lemma CoreOnDisk(h: Trail, v: Id, c: State)
    requires CoreOK(h, v, c)
    ensures DiskOK(h, v, c)
  {
    CoreOpen(h, v, c);
    SafePrefix(h.book, c.term, Full(c)[..c.lastDelivered], c.snap.covered);
  }

  // ---- growth ----

  ghost predicate SentMore(h: Trail, k: Trail)
  {
    && (forall t :: t in h.sent ==> t in k.sent && h.sent[t] <= k.sent[t])
    && h.acks <= k.acks && h.regs <= k.regs
  }

  datatype GrowthPart = BookGrowth | SentGrowth

  ghost predicate GrowthHas(part: GrowthPart, h: Trail, k: Trail)
  {
    match part
    case BookGrowth => Extends(h.book, k.book)
    case SentGrowth => SentMore(h, k)
  }

  /** Nothing recorded in h is missing from k. */
  ghost predicate Grows(h: Trail, k: Trail)
  {
    && Shape(h.book) && Shape(k.book) && h.book.members == k.book.members
    && forall part {:trigger GrowthHas(part, h, k)} :: GrowthHas(part, h, k)
  }

  lemma GrowthOpen(h: Trail, k: Trail)
    requires Grows(h, k)
    ensures Extends(h.book, k.book) && SentMore(h, k)
  {
    assert GrowthHas(BookGrowth, h, k) && GrowthHas(SentGrowth, h, k);
  }

  lemma GrowthClose(h: Trail, k: Trail)
    requires Extends(h.book, k.book) && SentMore(h, k)
    ensures Grows(h, k)
  {
  }

  lemma GrowsTrans(h: Trail, k: Trail, l: Trail)
    requires Grows(h, k) && Grows(k, l)
    ensures Grows(h, l)
  {
    GrowthOpen(h, k);
    GrowthOpen(k, l);
    ExtendsTrans(h.book, k.book, l.book);
    GrowthClose(h, l);
  }

  /** Everything k adds to h was done by v. */
  ghost predicate Local(h: Trail, k: Trail, v: Id)
  {
    && Shape(h.book) && Shape(k.book) && k.book.members == h.book.members
    && (forall u :: u in h.book.members && u != v ==> k.book.term[u] == h.book.term[u] && k.book.log[u] == h.book.log[u])
    && (forall t :: t in k.book.lead && !(t in h.book.lead && k.book.lead[t] == h.book.lead[t]) ==>
          t in k.book.won && k.book.won[t].leader == v)
    && (forall t :: t in k.book.won && t !in h.book.won ==> k.book.won[t].leader == v)
    && (forall b :: b in k.book.ballots && b !in h.book.ballots ==> b.voter == v)
    && (forall c :: c in k.book.commits && c !in h.book.commits ==> c.term in k.book.won && k.book.won[c.term].leader == v)
    && (forall t :: t in k.sent && !(t in h.sent && k.sent[t] == h.sent[t]) ==> t in k.book.won && k.book.won[t].leader == v)
    && (forall r :: r in k.regs && r !in h.regs ==> r.term in k.book.won && k.book.won[r.term].leader == v)
  }

  datatype MovePart = Growth | Locality

  ghost predicate MoveHas(part: MovePart, h: Trail, k: Trail, v: Id)
  {
    match part
    case Growth => Grows(h, k)
    case Locality => Local(h, k, v)
  }

  /** k is a well-formed extension of h by v alone. */
  ghost predicate Moves(h: Trail, k: Trail, v: Id)
  {
    && TrailInv(k) && Shape(h.book) && k.book.members == h.book.members
    && forall part {:trigger MoveHas(part, h, k, v)} :: MoveHas(part, h, k, v)
  }

  lemma MovesOpen(h: Trail, k: Trail, v: Id)
    requires Moves(h, k, v)
    ensures Grows(h, k) && Local(h, k, v)
  {
    assert MoveHas(Growth, h, k, v) && MoveHas(Locality, h, k, v);
  }

  lemma Grew(h: Trail, k: Trail, v: Id)
    requires Moves(h, k, v)
    ensures Grows(h, k)
  {
    assert MoveHas(Growth, h, k, v);
  }

  lemma MovesClose(h: Trail, k: Trail, v: Id)
    requires TrailInv(k) && Grows(h, k) && Local(h, k, v)
    ensures Moves(h, k, v)
  {
  }

  /** As Moves, and no read is registered. */
  ghost predicate StepBy(h: Trail, k: Trail, v: Id)
  {
    Moves(h, k, v) && k.regs == h.regs
  }

  lemma StepByTrans(h: Trail, k: Trail, l: Trail, v: Id)
    requires StepBy(h, k, v) && StepBy(k, l, v)
    ensures StepBy(h, l, v)
  {
    MovesTrans(h, k, l, v);
  }

  lemma LocalTrans(h: Trail, k: Trail, l: Trail, v: Id)
    requires Extends(h.book, k.book) && Extends(k.book, l.book) && Local(h, k, v) && Local(k, l, v)
    ensures Local(h, l, v)
  {
    forall t | t in l.book.lead && !(t in h.book.lead && l.book.lead[t] == h.book.lead[t])
      ensures t in l.book.won && l.book.won[t].leader == v
    {
      if t in k.book.lead && l.book.lead[t] == k.book.lead[t] {
        assert t in k.book.won && k.book.won[t].leader == v;
      }
    }
    forall t | t in l.sent && !(t in h.sent && l.sent[t] == h.sent[t])
      ensures t in l.book.won && l.book.won[t].leader == v
    {
      if t in k.sent && l.sent[t] == k.sent[t] {
        assert t in k.book.won && k.book.won[t].leader == v;
      }
    }
  }

  lemma MovesTrans(h: Trail, k: Trail, l: Trail, v: Id)
    requires Moves(h, k, v) && Moves(k, l, v)
    ensures Moves(h, l, v)
  {
    MovesOpen(h, k, v);
    MovesOpen(k, l, v);
    GrowthOpen(h, k);
    GrowthOpen(k, l);
    LocalTrans(h, k, l, v);
    GrowsTrans(h, k, l);
    MovesClose(h, l, v);
  }

  lemma StepByNothing(h: Trail, v: Id)
    requires TrailInv(h)
    ensures StepBy(h, h, v)
  {
    GrowthClose(h, h);
    MovesClose(h, h, v);
  }

  lemma AppendStays(h: Trail, k: Trail, q: AppendRequest)
    requires AppendOK(h, q) && Grows(h, k)
    ensures AppendOK(k, q)
  {
    GrowthOpen(h, k);
    var y, z := h.book.lead[q.term], k.book.lead[q.term];
    assert y[q.prevIndex..q.prevIndex + |q.entries|] == z[q.prevIndex..q.prevIndex + |q.entries|];
    assert y[..q.leaderCommit] == z[..q.leaderCommit];
    SafeStays(h.book, k.book, q.term, q.term, y[..q.leaderCommit]);
  }

  lemma InstallStays(h: Trail, k: Trail, q: SnapRequest)
    requires InstallOK(h, q) && Grows(h, k)
    ensures InstallOK(k, q)
  {
    GrowthOpen(h, k);
    SafeStays(h.book, k.book, q.term, q.term, q.snap.covered);
    PrefixTrans(q.snap.covered, h.book.lead[q.term], k.book.lead[q.term]);
  }

  lemma MessageStays(h: Trail, k: Trail, m: Message)
    requires MessageOK(h, m) && Grows(h, k)
    ensures MessageOK(k, m)
  {
    GrowthOpen(h, k);
    match m
    case AskAppend(_, q) => AppendStays(h, k, q);
    case AskInstall(_, q) => InstallStays(h, k, q);
    case TellAppend(_, _, q, _) => AppendStays(h, k, q);
    case TellInstall(_, _, q, _) => InstallStays(h, k, q);
    case _ =>
  }

  lemma SettledStays(g: Book, k: Book, e: Entry)
    requires Settled(g, e) && Extends(g, k)
    ensures Settled(k, e)
  {
    var c :| SettledBy(g, e, c);
    assert SettledBy(k, e, c);
  }

  lemma PendingsStay(h: Trail, k: Trail, term: nat, ps: seq<PendingRead>)
    requires PendingsOK(h, term, ps) && Grows(h, k)
    ensures PendingsOK(k, term, ps)
  {
    GrowthOpen(h, k);
    forall p | p in ps
      ensures PendingOK(k, term, p)
    {
      assert PendingOK(h, term, p);
      var r :| Tracks(h, term, p, r);
      assert Tracks(k, term, p, r);
    }
  }

  lemma OutcomesStay(h: Trail, k: Trail, term: nat, os: seq<ReadOutcome>)
    requires OutcomesOK(h, term, os) && Grows(h, k)
    ensures OutcomesOK(k, term, os)
  {
    GrowthOpen(h, k);
    forall o | o in os
      ensures OutcomeOK(k, term, o)
    {
      assert OutcomeOK(h, term, o);
      if o.confirmed {
        var r :| Proves(h, term, o, r);
        assert Proves(k, term, o, r);
      }
    }
  }

  lemma QueuesStay(h: Trail, k: Trail, c: State)
    requires QueuesOK(h, c) && Grows(h, k)
    ensures QueuesOK(k, c)
  {
    GrowthOpen(h, k);
    forall m | m in c.outbox
      ensures MessageOK(k, m)
    {
      MessageStays(h, k, m);
    }
    forall e | e in c.committed
      ensures Settled(k.book, e)
    {
      SettledStays(h.book, k.book, e);
    }
    OutcomesStay(h, k, c.term, c.readOutcomes);
  }

  lemma CursorsStay(h: Trail, k: Trail, c: State)
    requires CursorsOK(h, c) && Grows(h, k)
    ensures CursorsOK(k, c)
  {
    GrowthOpen(h, k);
    SafeStays(h.book, k.book, c.term, c.term, Full(c)[..c.commitIndex]);
    SafeStays(h.book, k.book, c.term, c.term, Full(c)[..c.lastDelivered]);
  }

  lemma VotesStay(h: Trail, k: Trail, v: Id, u: Id, c: State)
    requires Moves(h, k, v) && u != v && VoteLinked(h, u, c)
    ensures VoteLinked(k, u, c)
  {
    MovesOpen(h, k, v);
    GrowthOpen(h, k);
  }

  lemma DiskStays(h: Trail, k: Trail, v: Id, u: Id, c: State)
    requires Moves(h, k, v) && u != v && DiskOK(h, u, c)
    ensures DiskOK(k, u, c)
  {
    MovesOpen(h, k, v);
    GrowthOpen(h, k);
    VotesStay(h, k, v, u, c);
    SafeStays(h.book, k.book, c.term, c.term, c.snap.covered);
  }

  /** A step by v leaves every other node as the trail describes it. */
  lemma CoreStays(h: Trail, k: Trail, v: Id, u: Id, c: State)
    requires TrailInv(h) && Moves(h, k, v) && u != v && CoreOK(h, u, c)
    ensures CoreOK(k, u, c)
  {
    CoreOpen(h, u, c);
    MovesOpen(h, k, v);
    VotesStay(h, k, v, u, c);
    CursorsStay(h, k, c);
    PendingsStay(h, k, c.term, c.pendingReads);
    QueuesStay(h, k, c);
    LeaderStays(h, k, v, u, c);
    CandidateStays(h, k, v, u, c);
    CoreClose(k, u, c);
  }

  lemma CandidateStays(h: Trail, k: Trail, v: Id, u: Id, c: State)
    requires Moves(h, k, v) && u != v && CandidateOK(h, u, c)
    ensures CandidateOK(k, u, c)
  {
    MovesOpen(h, k, v);
    GrowthOpen(h, k);
  }

  lemma LeaderStays(h: Trail, k: Trail, v: Id, u: Id, c: State)
    requires Moves(h, k, v) && u != v && Linked(h, u, c) && LeaderOK(h, u, c)
    ensures LeaderOK(k, u, c)
  {
    MovesOpen(h, k, v);
    GrowthOpen(h, k);
    if c.role.Leader? {
      assert Leads(k.book, u);
      forall p: Id
        ensures MatchOK(k, c, p)
      {
        assert MatchOK(h, c, p);
      }
    }
  }
}
