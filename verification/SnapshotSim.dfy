/** Compaction, snapshot installation and crashes, as ledger steps. */
module SnapshotSim {
  import opened RaftLog
  import opened RaftCore
  import opened Ledger
  import opened Trail
  import opened CoreSim
  import opened FollowerSim
  import C = Cluster

  // ---- compaction ----

  lemma Moved(covered: Log, log: Log, k: nat)
    requires k <= |log|
    ensures (covered + log[..k]) + log[k..] == covered + log
    ensures covered + log[..k] == (covered + log)[..|covered| + k]
  {
  }

  /** Compaction moves entries into the snapshot; the whole log, and all a core sees of it, stay. */
  lemma CompactOK(h: Trail, v: Id, c: State, applied: nat, image: Log)
    requires TrailInv(h) && CoreOK(h, v, c) && Quiet(c)
    ensures CoreOK(h, v, Compact(c, applied, image)) && Full(Compact(c, applied, image)) == Full(c)
  {
    if c.snap.lastIndex < applied <= c.lastDelivered {
      CoreOpen(h, v, c);
      var x, k, d := Full(c), applied - c.snap.lastIndex, Compact(c, applied, image);
      TermAtIs(h, v, c, applied);
      Moved(c.snap.covered, c.entries, k);
      assert c.role.Leader? ==> forall u: Id :: MatchOK(h, c, u) ==> MatchOK(h, d, u);
      CoreClose(h, v, d);
    }
  }

  // ---- installation ----

  /** A snapshot at or below what a node knows to be committed is a prefix of its log already. */
  lemma CoveredHeld(h: Trail, v: Id, c: State, q: SnapRequest)
    requires TrailInv(h) && CoreOK(h, v, c) && InstallOK(h, q) && q.term == c.term
    requires StaleSnapshot(c, q.snap)
    ensures q.snap.covered <= Full(c)
  {
    TrailOpen(h);
    CoreOpen(h, v, c);
    var n := if q.snap.lastIndex <= c.commitIndex then c.commitIndex else c.lastDelivered;
    SafeInLead(h.book, c.term, Full(c)[..n], c.term);
    PrefixOfBoth(q.snap.covered, Full(c)[..n], h.book.lead[c.term]);
    PrefixTrans(q.snap.covered, Full(c)[..n], Full(c));
  }

  /** The suffix is kept exactly when the log already contains the snapshot's prefix. */
  lemma SuffixKept(h: Trail, v: Id, c: State, q: SnapRequest)
    requires TrailInv(h) && CoreOK(h, v, c) && InstallOK(h, q) && q.term == c.term && c.snap.lastIndex < q.snap.lastIndex
    ensures KeepsSuffix(c, q.snap) <==> q.snap.covered <= Full(c)
    ensures KeepsSuffix(c, q.snap) ==> q.snap.lastIndex - c.snap.lastIndex <= |c.entries|
  {
    var n, y := q.snap.lastIndex, h.book.lead[c.term];
    Contiguous(h, v, c);
    TermAtIs(h, v, c, n);
    assert q.snap.covered[n - 1] == y[n - 1];
    if KeepsSuffix(c, q.snap) {
      SharedThrough(h, v, c, c.term, n);
      assert q.snap.covered == y[..n];
    }
    PrefixAt(q.snap.covered, Full(c), n - 1);
  }

  lemma Rejoined(covered: Log, entries: Log, p: Log)
    requires |covered| <= |p| && p <= covered + entries
    ensures p + entries[|p| - |covered|..] == covered + entries
  {
    var x := covered + entries;
    assert p == x[..|p|] && entries[|p| - |covered|..] == x[|p|..];
  }

  lemma InstallMerges(c: State, snap: Snapshot)
    requires !StaleSnapshot(c, snap) && |snap.covered| == snap.lastIndex && |c.snap.covered| == c.snap.lastIndex
    requires KeepsSuffix(c, snap) <==> snap.covered <= Full(c)
    requires KeepsSuffix(c, snap) ==> snap.lastIndex - c.snap.lastIndex <= |c.entries|
    ensures Full(Install(c, snap)) == Merge(Full(c), snap.covered)
  {
    if KeepsSuffix(c, snap) {
      Rejoined(c.snap.covered, c.entries, snap.covered);
    }
  }

  lemma InstalledLog(h: Trail, v: Id, c: State, q: SnapRequest)
    requires TrailInv(h) && CoreOK(h, v, c) && InstallOK(h, q) && q.term == c.term && !StaleSnapshot(c, q.snap)
    ensures Full(Install(c, q.snap)) == Merge(Full(c), q.snap.covered)
  {
    SuffixKept(h, v, c, q);
    CoreOpen(h, v, c);
    InstallMerges(c, q.snap);
  }

  lemma InstalledCursors(h: Trail, k: Trail, c: State, d: State, q: SnapRequest)
    requires TrailInv(h) && CursorsOK(h, c) && Grows(h, k) && InstallOK(h, q) && q.term == c.term == d.term
    requires Full(d) == Merge(Full(c), q.snap.covered) && d.snap == q.snap && d.commitIndex == q.snap.lastIndex > 0
    requires d.lastDelivered == if c.lastDelivered < q.snap.lastIndex then q.snap.lastIndex else c.lastDelivered
    requires d.committed == []
    ensures CursorsOK(k, d)
  {
    TrailOpen(h);
    GrowthOpen(h, k);
    var x, y, p, n := Full(c), h.book.lead[c.term], q.snap.covered, c.lastDelivered;
    assert Full(d)[..q.snap.lastIndex] == p;
    SafeStays(h.book, k.book, c.term, c.term, p);
    SafeInLead(h.book, c.term, x[..n], c.term);
    MergeKeeps(x, p, y, x[..n]);
    assert Full(d)[..n] == x[..n];
    SafeStays(h.book, k.book, c.term, c.term, x[..n]);
  }

  lemma InstalledCore(h: Trail, k: Trail, v: Id, c: State, q: SnapRequest)
    requires TrailInv(h) && CoreOK(h, v, c) && c.role.Follower? && InstallOK(h, q) && q.term == c.term
    requires !StaleSnapshot(c, q.snap) && c.committed == [] && c.outbox == []
    requires k == h.(book := Take(h.book, v, q.snap.lastIndex)) && Grows(h, k)
    ensures CoreOK(k, v, Install(c, q.snap))
  {
    CoreOpen(h, v, c);
    GrowthOpen(h, k);
    var d := Install(c, q.snap);
    InstalledLog(h, v, c, q);
    assert q.snap.covered == h.book.lead[c.term][..q.snap.lastIndex];
    InstalledCursors(h, k, c, d, q);
    QueuesStay(h, k, c);
    CoreClose(k, v, d);
  }

  /** The part of InstallSnapshot after the sender is recognized as the current leader. */
  lemma InstallStep(h: Trail, v: Id, c: State, q: SnapRequest) returns (k: Trail)
    requires TrailInv(h) && CoreOK(h, v, c) && c.role.Follower? && InstallOK(h, q) && q.term == c.term && c.committed == [] && c.outbox == []
    ensures StepBy(h, k, v) && Held(k.book, v, q.term, q.snap.lastIndex)
    ensures CoreOK(k, v, Install(c, q.snap))
  {
    k := TakeStep(h, v, q.snap.lastIndex);
    Grew(h, k, v);
    if StaleSnapshot(c, q.snap) {
      CoveredHeld(h, v, c, q);
      assert q.snap.covered == h.book.lead[c.term][..q.snap.lastIndex];
      TakenCore(h, k, v, c, c, q.snap.lastIndex);
    } else {
      InstalledCore(h, k, v, c, q);
    }
  }

  lemma HandleInstallSnapshotOK(h: Trail, v: Id, c: State, q: SnapRequest) returns (k: Trail)
    requires TrailInv(h) && CoreOK(h, v, c) && NoneConfirmed(c) && c.committed == [] && c.outbox == [] && MessageOK(h, AskInstall(v, q))
    ensures StepBy(h, k, v)
    ensures var (d, r) := HandleInstallSnapshot(c, q);
            CoreOK(k, v, d) && MessageOK(k, TellInstall(v, q.leader, q, r))
  {
    var j := RecognizeOK(h, v, c, q.term, q.leader);
    Grew(h, j, v);
    InstallStays(h, j, q);
    var d := Recognize(c, q.term, q.leader);
    if q.term < d.term {
      k := j;
    } else {
      k := InstallStep(j, v, d, q);
      StepByTrans(h, j, k, v);
      Grew(h, k, v);
      InstallStays(h, k, q);
    }
  }

  // ---- crashes ----

  lemma RebootOK(h: Trail, v: Id, c: State)
    requires TrailInv(h) && DiskOK(h, v, c)
    ensures CoreOK(h, v, NewCore(c.term, c.votedFor, c.snap, c.entries))
  {
    var d := NewCore(c.term, c.votedFor, c.snap, c.entries);
    assert Full(d)[..c.snap.lastIndex] == c.snap.covered;
    CoreClose(h, v, d);
  }

  lemma Shorter(y: Log, p: nat, es: Log, w: nat)
    requires w <= |es| && p + |es| <= |y| && es == y[p..p + |es|]
    ensures es[..w] == y[p..p + w]
  {
  }

  /** Part of a leader's log, from just above p up to n, stored on top of a log that shares its first p. */
  lemma StoredOnDisk(h: Trail, v: Id, c: State, p: nat, n: nat, es: Log) returns (k: Trail)
    requires TrailInv(h) && CoreOK(h, v, c) && c.role.Follower? && c.term in h.book.lead && p <= n <= |h.book.lead[c.term]|
    requires Shares(c, h.book.lead[c.term], p) && es == h.book.lead[c.term][p..n]
    ensures StepBy(h, k, v) && DiskOK(k, v, StoreNew(c, es))
  {
    if p == 0 < n && 2 <= c.snap.lastIndex {
      k := h;
      StepByNothing(h, v);
      StoreNewMerges(h, v, c, 0, n);
      CoreOnDisk(h, v, c);
    } else {
      k := StoreOK(h, v, c, p, n);
      CoreOnDisk(k, v, StoreNew(c, es));
    }
  }

  /** Only part of a batch reached the disk. */
  lemma TornOK(h: Trail, v: Id, c: State, q: AppendRequest, w: nat) returns (k: Trail)
    requires TrailInv(h) && CoreOK(h, v, c) && c.role.Follower? && AppendOK(h, q) && q.term == c.term
    requires Conflict(c, q).None? && w <= |q.entries|
    ensures StepBy(h, k, v) && DiskOK(k, v, StoreNew(c, q.entries[..w]))
  {
    CheckPassed(h, v, c, q);
    Shorter(h.book.lead[c.term], q.prevIndex, q.entries, w);
    k := StoredOnDisk(h, v, c, q.prevIndex, q.prevIndex + w, q.entries[..w]);
  }

  lemma MidAppendOK(h: Trail, v: Id, c: State, q: AppendRequest, w: nat) returns (k: Trail)
    requires TrailInv(h) && CoreOK(h, v, c) && NoneConfirmed(c) && MessageOK(h, AskAppend(v, q))
    ensures StepBy(h, k, v)
    ensures var s := Recognize(c, q.term, q.leader);
            DiskOK(k, v, if q.term < s.term || Conflict(s, q).Some? || w > |q.entries| then s
                         else StoreNew(s, q.entries[..w]))
  {
    var j := RecognizeOK(h, v, c, q.term, q.leader);
    Grew(h, j, v);
    AppendStays(h, j, q);
    var s := Recognize(c, q.term, q.leader);
    if q.term < s.term || Conflict(s, q).Some? || w > |q.entries| {
      k := j;
      CoreOnDisk(k, v, s);
    } else {
      k := TornOK(j, v, s, q, w);
      StepByTrans(h, j, k, v);
    }
  }

  lemma OnDiskOK(h: Trail, cfg: Config, v: Id, n: C.Node, crash: C.Crash) returns (k: Trail)
    requires TrailInv(h) && ConfigOK(h, cfg) && cfg.id == v && n.up && CoreOK(h, v, n.core) && NoneConfirmed(n.core)
    requires crash.MidAppend? ==> MessageOK(h, AskAppend(v, crash.req))
    ensures StepBy(h, k, v) && DiskOK(k, v, C.OnDisk(cfg, n, crash))
  {
    var c := n.core;
    if crash.TermSaved? && crash.term > c.term {
      k := StepDownOK(h, v, c, crash.term);
      CoreOnDisk(k, v, StepDown(c, crash.term));
    } else if crash.CandidacySaved? && !c.role.Leader? {
      k := StandOK(h, cfg, v, c);
      CoreOnDisk(k, v, Stand(cfg, c));
    } else if crash.MidAppend? {
      k := MidAppendOK(h, v, c, crash.req, crash.written);
    } else {
      k := h;
      StepByNothing(h, v);
      CoreOnDisk(h, v, c);
    }
  }
}
