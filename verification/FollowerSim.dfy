/** Taking over a leader's entries and snapshots, as ledger steps.

    Whatever a current-term leader sends, a follower's whole log becomes the merge of what it had and
    the prefix the leader showed it, in one write or in several, compacted or not. */
module FollowerSim {
  import opened RaftLog
  import opened RaftCore
  import opened Ledger
  import opened Trail
  import opened CoreSim
  import opened VoteSim

  // ---- recognizing the leader ----

  lemma RecognizeOK(h: Trail, v: Id, c: State, t: nat, leader: Id) returns (k: Trail)
    requires TrailInv(h) && CoreOK(h, v, c) && NoneConfirmed(c)
    requires t in h.book.won && h.book.won[t].leader == leader && leader != v
    ensures StepBy(h, k, v) && CoreOK(k, v, Recognize(c, t, leader)) && NoneConfirmed(Recognize(c, t, leader))
    ensures var d := Recognize(c, t, leader);
            d.snap == c.snap && d.entries == c.entries && d.commitIndex == c.commitIndex && d.lastDelivered == c.lastDelivered
            && d.committed == c.committed && d.outbox == c.outbox && (t >= c.term ==> d.term == t && d.role.Follower?)
  {
    k := AdoptOK(h, v, c, t);
    var d := if t > c.term then StepDown(c, t) else c;
    if t >= d.term {
      Grew(h, k, v);
      GrowthOpen(h, k);
      NotItsOwnTerm(k, v, d, t);
      FollowsOK(k, v, d, leader);
    }
  }

  /** A node that does not lead its term may become a follower in it at any time. */
  lemma FollowsOK(h: Trail, v: Id, c: State, leader: Id)
    requires CoreOK(h, v, c) && !c.role.Leader?
    ensures CoreOK(h, v, (if c.role.Follower? then c else c.(role := Follower, votes := {})).(leaderId := leader))
  {
    CoreOpen(h, v, c);
    CoreClose(h, v, (if c.role.Follower? then c else c.(role := Follower, votes := {})).(leaderId := leader));
  }

  // ---- the log-matching check ----

  /** Where a core sees the leader's term at index i, it has the leader's log through i. */
  lemma SharedThrough(h: Trail, v: Id, c: State, t: nat, i: nat)
    requires TrailInv(h) && CoreOK(h, v, c) && t in h.book.lead && 0 < i <= |h.book.lead[t]|
    requires i <= LastIndex(c) && TermAt(c, i) == h.book.lead[t][i - 1].term
    ensures c.snap.lastIndex <= i <= |Full(c)| && Full(c)[..i] == h.book.lead[t][..i]
  {
    TrailOpen(h);
    Contiguous(h, v, c);
    TermAtIs(h, v, c, i);
    assert LeadAt(h.book, t) && NodeAt(h.book, v);
    LogsMatch(h.book, Full(c), h.book.lead[t], i - 1);
  }

  ghost predicate Shares(c: State, y: Log, p: nat)
  {
    p == 0 || (c.snap.lastIndex <= p <= |Full(c)| && p <= |y| && Full(c)[..p] == y[..p])
  }

  lemma CheckPassed(h: Trail, v: Id, c: State, q: AppendRequest)
    requires TrailInv(h) && CoreOK(h, v, c) && AppendOK(h, q) && Conflict(c, q).None?
    ensures Shares(c, h.book.lead[q.term], q.prevIndex)
  {
    if q.prevIndex > 0 {
      SharedThrough(h, v, c, q.term, q.prevIndex);
    }
  }

  lemma {:induction false} FirstNewIs(s: State, es: Log, i: nat)
    requires i <= |es|
    ensures var j := FirstNew(s, es, i);
            && (i < j ==> !IsNew(s, es[i]) && !IsNew(s, es[j - 1]))
            && (j < |es| ==> IsNew(s, es[j]))
    decreases |es| - i
  {
    if i < |es| && !IsNew(s, es[i]) {
      FirstNewIs(s, es, i + 1);
    }
  }

  // ---- storing ----

  /** The part of a request before its first new entry is already in the core's log. */
  lemma OldPart(h: Trail, v: Id, c: State, p: nat, j: nat)
    requires TrailInv(h) && CoreOK(h, v, c) && c.term in h.book.lead && p + j <= |h.book.lead[c.term]|
    requires Shares(c, h.book.lead[c.term], p) && (0 < j ==> !IsNew(c, h.book.lead[c.term][p + j - 1]))
    ensures Shares(c, h.book.lead[c.term], p + j)
  {
    TrailOpen(h);
    if j > 0 {
      assert LeadAt(h.book, c.term);
      SharedThrough(h, v, c, c.term, p + j);
    }
  }

  lemma AgreesAt(x: Log, y: Log, n: nat, i: nat)
    requires n <= |x| && x[..n] <= y && 0 < i
    ensures i <= n ==> i <= |y| && x[i - 1] == y[i - 1]
  {
    if i <= n {
      PrefixAt(x[..n], y, i - 1);
    }
  }

  /** A new entry at or above the snapshot lies above everything known to be committed. */
  lemma NewIsUncommitted(h: Trail, v: Id, c: State, i: nat)
    requires TrailInv(h) && CoreOK(h, v, c) && c.term in h.book.lead && 0 < i <= |h.book.lead[c.term]|
    requires IsNew(c, h.book.lead[c.term][i - 1]) && c.snap.lastIndex <= i
    ensures c.commitIndex < i && c.snap.lastIndex < i
    ensures i <= |Full(c)| ==> Full(c)[i - 1] != h.book.lead[c.term][i - 1]
  {
    TrailOpen(h);
    CoreOpen(h, v, c);
    var x, y := Full(c), h.book.lead[c.term];
    assert LeadAt(h.book, c.term);
    Contiguous(h, v, c);
    TermAtIs(h, v, c, i);
    SafeInLead(h.book, c.term, x[..c.commitIndex], c.term);
    SafeInLead(h.book, c.term, x[..c.lastDelivered], c.term);
    AgreesAt(x, y, c.commitIndex, i);
    AgreesAt(x, y, c.lastDelivered, i);
  }

  /** Replacing everything from index i on by the leader's entries i..n leaves the leader's first n. */
  lemma CutAndPaste(covered: Log, entries: Log, y: Log, i: nat, n: nat)
    requires |covered| < i <= n <= |y| && i - 1 <= |covered + entries| && (covered + entries)[..i - 1] == y[..i - 1]
    ensures covered + (entries[..i - 1 - |covered|] + y[i - 1..n]) == y[..n]
  {
    assert covered + entries[..i - 1 - |covered|] == (covered + entries)[..i - 1];
    assert y[..i - 1] + y[i - 1..n] == y[..n];
  }

  lemma NotYetHeld(x: Log, y: Log, i: nat, n: nat)
    requires 0 < i <= n <= |y| && (i <= |x| ==> x[i - 1] != y[i - 1])
    ensures Merge(x, y[..n]) == y[..n]
  {
    PrefixAt(y[..n], x, i - 1);
  }

  /** Cutting at index i and appending the leader's entries i..n, given where the log stands. */
  lemma CutAt(c: State, y: Log, i: nat, n: nat)
    requires 0 < i <= n <= |y| && y[i - 1].index == i && c.commitIndex < i && !c.halted
    requires |c.snap.covered| == c.snap.lastIndex < i && i - 1 <= |Full(c)| == LastIndex(c)
    requires |c.entries| > 0 ==> c.entries[0].index == c.snap.lastIndex + 1
    requires Full(c)[..i - 1] == y[..i - 1] && (i <= |Full(c)| ==> Full(c)[i - 1] != y[i - 1])
    ensures var d := TruncateAndAppend(c, y[i - 1..n]);
            !d.halted && d == c.(entries := d.entries) && Full(d) == Merge(Full(c), y[..n])
  {
    var es, k := y[i - 1..n], i - 1 - c.snap.lastIndex;
    assert es[0].index == i;
    if i == LastIndex(c) + 1 {
      assert c.entries[..k] == c.entries;
    }
    assert TruncateAndAppend(c, es) == c.(entries := c.entries[..k] + es);
    CutAndPaste(c.snap.covered, c.entries, y, i, n);
    NotYetHeld(Full(c), y, i, n);
  }

  lemma StoredLog(h: Trail, v: Id, c: State, n: nat, i: nat)
    requires TrailInv(h) && CoreOK(h, v, c) && c.term in h.book.lead && 0 < i <= n <= |h.book.lead[c.term]|
    requires Shares(c, h.book.lead[c.term], i - 1) && c.snap.lastIndex < i && IsNew(c, h.book.lead[c.term][i - 1])
    ensures var d := TruncateAndAppend(c, h.book.lead[c.term][i - 1..n]);
            !d.halted && d == c.(entries := d.entries) && Full(d) == Merge(Full(c), h.book.lead[c.term][..n])
  {
    TrailOpen(h);
    NewIsUncommitted(h, v, c, i);
    Contiguous(h, v, c);
    assert LeadAt(h.book, c.term);
    CutAt(c, h.book.lead[c.term], i, n);
  }

  lemma RefusedBelow(h: Trail, v: Id, c: State, n: nat)
    requires TrailInv(h) && CoreOK(h, v, c) && c.term in h.book.lead && 0 < n <= |h.book.lead[c.term]|
    requires 1 <= c.snap.lastIndex && IsNew(c, h.book.lead[c.term][0])
    ensures 2 <= c.snap.lastIndex && TruncateAndAppend(c, h.book.lead[c.term][..n]) == c.(halted := true)
  {
    CoreOpen(h, v, c);
    Contiguous(h, v, c);
    TrailOpen(h);
    assert LeadAt(h.book, c.term);
    if c.snap.lastIndex == 1 {
      NewIsUncommitted(h, v, c, 1);
    }
  }

  /** Below its snapshot a core sees no terms, so entry 1 always looks new to a node compacted past it. */
  lemma FirstLooksNew(h: Trail, v: Id, c: State, e: Entry)
    requires TrailInv(h) && CoreOK(h, v, c) && 2 <= c.snap.lastIndex && e.index == 1 && 0 < e.term
    ensures IsNew(c, e)
  {
    TermAtIs(h, v, c, 1);
  }

  /** What storing the leader's entries p+1..n comes to when the first j of them are old. */
  function StoredFrom(c: State, y: Log, p: nat, j: nat, n: nat): State
    requires p + j <= n <= |y|
  {
    if p + j == n then c else TruncateAndAppend(c, y[p + j..n])
  }

  /** A request that starts from scratch meets a node that has compacted past index 1. */
  lemma StoredFromRefused(h: Trail, v: Id, c: State, j: nat, n: nat)
    requires TrailInv(h) && CoreOK(h, v, c) && c.term in h.book.lead && j <= n <= |h.book.lead[c.term]|
    requires 0 < j ==> !IsNew(c, h.book.lead[c.term][0])
    requires 0 < n && 2 <= c.snap.lastIndex
    ensures StoredFrom(c, h.book.lead[c.term], 0, j, n) == c.(halted := true)
  {
    var y := h.book.lead[c.term];
    TrailOpen(h);
    assert LeadAt(h.book, c.term);
    FirstLooksNew(h, v, c, y[0]);
    assert y[0..n] == y[..n];
    RefusedBelow(h, v, c, n);
  }

  lemma StoredFromMerges(h: Trail, v: Id, c: State, p: nat, j: nat, n: nat)
    requires TrailInv(h) && CoreOK(h, v, c) && c.term in h.book.lead && p + j <= n <= |h.book.lead[c.term]|
    requires Shares(c, h.book.lead[c.term], p + j)
    requires p + j < n ==> IsNew(c, h.book.lead[c.term][p + j])
    requires !(p == 0 < n && 2 <= c.snap.lastIndex)
    ensures var d := StoredFrom(c, h.book.lead[c.term], p, j, n);
            !d.halted && d == c.(entries := d.entries) && Full(d) == Merge(Full(c), h.book.lead[c.term][..n])
  {
    var y := h.book.lead[c.term];
    if p + j == n {
      assert y[..n] <= Full(c);
    } else {
      if c.snap.lastIndex == 1 && p + j == 0 {
        NewIsUncommitted(h, v, c, 1);
      }
      StoredLog(h, v, c, n, p + j + 1);
    }
  }

  /** Storing the leader's entries p+1..n merges its first n entries into the log. The one exception is
      a request that starts from scratch below the snapshot of a node that has compacted: it is refused. */
  lemma StoreNewMerges(h: Trail, v: Id, c: State, p: nat, n: nat)
    requires TrailInv(h) && CoreOK(h, v, c) && c.term in h.book.lead && p <= n <= |h.book.lead[c.term]|
    requires Shares(c, h.book.lead[c.term], p)
    ensures var d := StoreNew(c, h.book.lead[c.term][p..n]);
            && d == c.(entries := d.entries, halted := d.halted)
            && (d.halted <==> p == 0 < n && 2 <= c.snap.lastIndex)
            && Full(d) == if d.halted then Full(c) else Merge(Full(c), h.book.lead[c.term][..n])
  {
    var y := h.book.lead[c.term];
    var j := StoreNewFrom(c, y, p, n);
    if p == 0 < n && 2 <= c.snap.lastIndex {
      StoredFromRefused(h, v, c, j, n);
    } else {
      OldPart(h, v, c, p, j);
      StoredFromMerges(h, v, c, p, j, n);
    }
  }

  lemma StoreNewFrom(c: State, y: Log, p: nat, n: nat) returns (j: nat)
    requires p <= n <= |y|
    ensures p + j <= n && StoreNew(c, y[p..n]) == StoredFrom(c, y, p, j, n)
    ensures 0 < j ==> !IsNew(c, y[p]) && !IsNew(c, y[p + j - 1])
    ensures p + j < n ==> IsNew(c, y[p + j])
  {
    var es := y[p..n];
    j := FirstNew(c, es, 0);
    FirstNewIs(c, es, 0);
    assert es[j..] == y[p + j..n];
  }

  // ---- ledger steps ----

  lemma TakeStep(h: Trail, v: Id, n: nat) returns (k: Trail)
    requires TrailInv(h) && v in h.book.members && h.book.term[v] in h.book.lead && n <= |h.book.lead[h.book.term[v]]|
    ensures k == h.(book := Take(h.book, v, n)) && StepBy(h, k, v) && Held(k.book, v, h.book.term[v], n)
  {
    TrailOpen(h);
    TakeOK(h.book, v, n);
    k := h.(book := Take(h.book, v, n));
    ReadsStay(h, k);
    TrailClose(k);
    MovesClose(h, k, v);
  }

  /** Merging more of the leader's log keeps everything committed. */
  lemma MergedCursors(h: Trail, k: Trail, v: Id, c: State, d: State, p: Log)
    requires TrailInv(h) && CursorsOK(h, c) && Grows(h, k) && c.term in h.book.lead && p <= h.book.lead[c.term]
    requires Full(d) == Merge(Full(c), p) && d.term == c.term && d.commitIndex == c.commitIndex
    requires d.lastDelivered == c.lastDelivered && d.snap.lastIndex <= d.lastDelivered && d.committed == c.committed
    ensures CursorsOK(k, d)
  {
    TrailOpen(h);
    GrowthOpen(h, k);
    var x, y := Full(c), h.book.lead[c.term];
    forall n | n == c.commitIndex || n == c.lastDelivered
      ensures n <= |Full(d)| && Full(d)[..n] == x[..n] && Safe(k.book, d.term, Full(d)[..n])
    {
      SafeInLead(h.book, c.term, x[..n], c.term);
      MergeKeeps(x, p, y, x[..n]);
      assert Full(d)[..n] == x[..n];
      SafeStays(h.book, k.book, c.term, c.term, x[..n]);
    }
    DeliveredStays(c, d);
  }

  lemma DeliveredStays(c: State, d: State)
    requires Delivered(c) && d.lastDelivered == c.lastDelivered <= |Full(d)| && d.committed == c.committed
    requires Full(d)[..c.lastDelivered] == Full(c)[..c.lastDelivered]
    ensures Delivered(d)
  {
    var a, n := c.lastDelivered - |c.committed|, c.lastDelivered;
    assert Full(d)[a..n] == Full(d)[..n][a..] == Full(c)[..n][a..] == Full(c)[a..n];
  }

  lemma TakenCore(h: Trail, k: Trail, v: Id, c: State, d: State, n: nat)
    requires TrailInv(h) && CoreOK(h, v, c) && c.role.Follower? && c.term in h.book.lead && n <= |h.book.lead[c.term]|
    requires k == h.(book := Take(h.book, v, n)) && Grows(h, k)
    requires d == c.(entries := d.entries) && Full(d) == Merge(Full(c), h.book.lead[c.term][..n])
    ensures CoreOK(k, v, d)
  {
    CoreOpen(h, v, c);
    GrowthOpen(h, k);
    MergedCursors(h, k, v, c, d, h.book.lead[c.term][..n]);
    QueuesStay(h, k, c);
    CoreClose(k, v, d);
  }

  lemma AckReads(h: Trail, k: Trail, v: Id, t: nat, seqNo: nat)
    requires TrailInv(h) && v in h.book.members && t == h.book.term[v] && t in h.sent && seqNo <= h.sent[t]
    requires k == h.(acks := h.acks + {Ack(v, t, seqNo)})
    ensures ReadsOK(k)
  {
    TrailOpen(h);
    forall r
      ensures RegAt(k, r)
    {
      assert RegAt(h, r);
      if r in h.regs { CoveringStays(h, k, r); }
    }
  }

  lemma AckStep(h: Trail, v: Id, c: State, seqNo: nat) returns (k: Trail)
    requires TrailInv(h) && CoreOK(h, v, c) && c.term in h.sent && seqNo <= h.sent[c.term]
    ensures k == h.(acks := h.acks + {Ack(v, c.term, seqNo)}) && StepBy(h, k, v) && CoreOK(k, v, c)
  {
    k := h.(acks := h.acks + {Ack(v, c.term, seqNo)});
    AckReads(h, k, v, c.term, seqNo);
    TrailOpen(h);
    GrowthClose(h, k);
    TrailClose(k);
    MovesClose(h, k, v);
    CoreOpen(h, v, c);
    SelfStays(h, k, v, c);
  }

  // ---- AppendEntries ----

  lemma AdvanceToOK(h: Trail, v: Id, c: State, q: AppendRequest)
    requires TrailInv(h) && CoreOK(h, v, c) && c.role.Follower? && AppendOK(h, q) && q.term == c.term
    requires h.book.lead[c.term][..q.prevIndex + |q.entries|] <= Full(c)
    ensures CoreOK(h, v, AdvanceTo(c, q.leaderCommit, q.prevIndex + |q.entries|))
  {
    var n, y := q.prevIndex + |q.entries|, h.book.lead[c.term];
    if q.leaderCommit > c.commitIndex {
      var m := if q.leaderCommit < n then q.leaderCommit else n;
      var d := c.(commitIndex := m);
      CoreOpen(h, v, c);
      assert Full(d)[..m] == y[..m] == y[..q.leaderCommit][..m];
      SafePrefix(h.book, c.term, y[..q.leaderCommit], y[..m]);
      CoreClose(h, v, d);
      DeliverOK(h, v, d);
    }
  }

  /** The log and the trail after the first n entries of the leader's log are stored, all or in part. */
  lemma StoreOK(h: Trail, v: Id, c: State, p: nat, n: nat) returns (k: Trail)
    requires TrailInv(h) && CoreOK(h, v, c) && c.role.Follower? && c.term in h.book.lead && p <= n <= |h.book.lead[c.term]|
    requires Shares(c, h.book.lead[c.term], p) && !(p == 0 < n && 2 <= c.snap.lastIndex)
    ensures StepBy(h, k, v) && Held(k.book, v, c.term, n) && k.book.lead == h.book.lead && k.sent == h.sent
    ensures var d := StoreNew(c, h.book.lead[c.term][p..n]);
            CoreOK(k, v, d) && d == c.(entries := d.entries) && h.book.lead[c.term][..n] <= Full(d)
  {
    StoreNewMerges(h, v, c, p, n);
    k := TakeStep(h, v, n);
    Grew(h, k, v);
    TakenCore(h, k, v, c, StoreNew(c, h.book.lead[c.term][p..n]), n);
  }

  lemma AcceptOK(h: Trail, v: Id, c: State, q: AppendRequest) returns (k: Trail)
    requires TrailInv(h) && CoreOK(h, v, c) && c.role.Follower? && AppendOK(h, q) && q.term == c.term
    requires Conflict(c, q).None? && !(q.prevIndex == 0 && 2 <= c.snap.lastIndex)
    ensures StepBy(h, k, v) && Held(k.book, v, q.term, q.prevIndex + |q.entries|) && Ack(v, q.term, q.seqNo) in k.acks
    ensures CoreOK(k, v, Replicate(c, q).0)
  {
    CheckPassed(h, v, c, q);
    var n := q.prevIndex + |q.entries|;
    var j := StoreOK(h, v, c, q.prevIndex, n);
    var d := StoreNew(c, q.entries);
    k := AckStep(j, v, d, q.seqNo);
    StepByTrans(h, j, k, v);
    Grew(h, k, v);
    AppendStays(h, k, q);
    AdvanceToOK(k, v, d, q);
  }

  /** The request is refused outright: it comes from the current leader, starts at index 1, and the node
      has compacted past index 1. */
  predicate Refuses(c: State, q: AppendRequest)
  {
    q.term >= c.term && q.prevIndex == 0 && 2 <= c.snap.lastIndex
  }

  lemma RefuseOK(h: Trail, v: Id, c: State, q: AppendRequest)
    requires TrailInv(h) && CoreOK(h, v, c) && AppendOK(h, q) && q.term == c.term
    requires q.prevIndex == 0 && 2 <= c.snap.lastIndex
    ensures StoreNew(c, q.entries) == c.(halted := true) && DiskOK(h, v, c.(halted := true))
  {
    CoreOnDisk(h, v, c);
    StoreNewMerges(h, v, c, 0, |q.entries|);
    assert q.entries == h.book.lead[c.term][0..|q.entries|];
    var d := StoreNew(c, q.entries);
    assert c.snap.covered + d.entries == c.snap.covered + c.entries;
    assert d.entries == Full(d)[c.snap.lastIndex..] == c.entries;
  }

  lemma AcceptedOK(h: Trail, v: Id, c: State, q: AppendRequest) returns (k: Trail)
    requires TrailInv(h) && CoreOK(h, v, c) && c.role.Follower? && q.term == c.term && MessageOK(h, AskAppend(v, q))
    requires Conflict(c, q).None? && !Refuses(c, q)
    ensures StepBy(h, k, v) && CoreOK(k, v, Replicate(c, q).0)
    ensures MessageOK(k, TellAppend(v, q.leader, q, Replicate(c, q).1))
  {
    k := AcceptOK(h, v, c, q);
    Grew(h, k, v);
    AppendStays(h, k, q);
  }

  lemma ReplicateOK(h: Trail, v: Id, c: State, q: AppendRequest) returns (k: Trail)
    requires TrailInv(h) && CoreOK(h, v, c) && c.role.Follower? && q.term == c.term && MessageOK(h, AskAppend(v, q))
    ensures StepBy(h, k, v)
    ensures var (d, r) := Replicate(c, q);
            && (d.halted <==> Refuses(c, q))
            && (if d.halted then DiskOK(k, v, d) else CoreOK(k, v, d) && MessageOK(k, TellAppend(v, q.leader, q, r)))
  {
    if Conflict(c, q).None? && !Refuses(c, q) {
      k := AcceptedOK(h, v, c, q);
    } else {
      k := h;
      StepByNothing(h, v);
      if Conflict(c, q).None? {
        RefuseOK(h, v, c, q);
      }
    }
  }

  lemma HandleAppendEntriesOK(h: Trail, v: Id, c: State, q: AppendRequest) returns (k: Trail)
    requires TrailInv(h) && CoreOK(h, v, c) && NoneConfirmed(c) && MessageOK(h, AskAppend(v, q))
    ensures StepBy(h, k, v)
    ensures var (d, r) := HandleAppendEntries(c, q);
            && (d.halted <==> Refuses(c, q))
            && (if d.halted then DiskOK(k, v, d) else CoreOK(k, v, d) && MessageOK(k, TellAppend(v, q.leader, q, r)))
  {
    var j := RecognizeOK(h, v, c, q.term, q.leader);
    Grew(h, j, v);
    AppendStays(h, j, q);
    var d := Recognize(c, q.term, q.leader);
    if q.term < d.term {
      k := j;
    } else {
      k := ReplicateOK(j, v, d, q);
      StepByTrans(h, j, k, v);
    }
  }
}
