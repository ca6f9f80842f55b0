/** The early-exit scans over the log find what a full search would.

    Both scans walk down from the end of the log and stop at the first entry whose term rules out
    everything below it. That is only right because terms never fall along a log. */
module Scans {
  import opened RaftLog
  import opened RaftCore
  import opened Cluster
  import opened Ledger
  import opened Trail
  import opened CoreSim
  import opened ClusterSim
  import Compaction

  /** The terms a core sees at and above its snapshot never fall, and it sees none below. */
  predicate Ordered(c: State)
  {
    && c.snap.lastIndex <= LastIndex(c)
    && (forall i, j :: c.snap.lastIndex <= i <= j <= LastIndex(c) ==> TermAt(c, i) <= TermAt(c, j))
    && (forall i :: 0 < i < c.snap.lastIndex ==> TermAt(c, i) == 0)
    && (forall i :: c.snap.lastIndex <= i <= LastIndex(c) && 0 < i ==> 0 < TermAt(c, i) <= c.term)
  }

  lemma TermsRise(h: Trail, v: Id, c: State, i: nat, j: nat)
    requires TrailInv(h) && CoreOK(h, v, c) && c.snap.lastIndex <= i <= j <= |Full(c)|
    ensures TermAt(c, i) <= TermAt(c, j) && (0 < i ==> 0 < TermAt(c, i) <= c.term)
  {
    TrailOpen(h);
    assert NodeAt(h.book, v);
    TermAtIs(h, v, c, i);
    TermAtIs(h, v, c, j);
    if 0 < i {
      LogShape(h.book, Full(c), j - 1);
    }
  }

  lemma OrderedCore(h: Trail, v: Id, c: State)
    requires TrailInv(h) && CoreOK(h, v, c)
    ensures Ordered(c)
  {
    Contiguous(h, v, c);
    forall i, j | c.snap.lastIndex <= i <= j <= LastIndex(c)
      ensures TermAt(c, i) <= TermAt(c, j) && (0 < i ==> 0 < TermAt(c, i) <= c.term)
    {
      TermsRise(h, v, c, i, j);
    }
    forall i | 0 < i < c.snap.lastIndex
      ensures TermAt(c, i) == 0
    {
      TermAtIs(h, v, c, i);
    }
  }

  /** Every core a run reaches sees ordered terms. */
  lemma ReachableOrdered(members: set<Id>, run: seq<Event>, i: nat, v: Id)
    requires NO_NODE !in members && i <= |run| && v in At(members, run, i).nodes && At(members, run, i).nodes[v].up
    ensures Ordered(At(members, run, i).nodes[v].core)
  {
    var hs := Trace(members, run);
    assert SimAt(members, run, hs, i);
    SimNode(At(members, run, i), hs[i], v);
    OrderedCore(hs[i], v, At(members, run, i).nodes[v].core);
  }

  /** A majority, the core included, is known to store the entry of index n, which is of its own term. */
  predicate Committable(cfg: Config, c: State, n: nat)
  {
    TermAt(c, n) == c.term && |Holders(cfg, c, n)| >= Majority(cfg.members)
  }

  lemma {:induction false} ScanReaches(cfg: Config, c: State, n: nat, m: nat)
    requires Ordered(c) && 0 < c.term && c.commitIndex < m <= n <= LastIndex(c) && Committable(cfg, c, m)
    ensures m <= ScanCommit(cfg, c, n)
  {
    if TermAt(c, n) == c.term && |Holders(cfg, c, n)| < Majority(cfg.members) {
      ScanReaches(cfg, c, n - 1, m);
    }
  }

  /** maybeAdvanceCommit's scan: it moves the commit index exactly when some index above it is
      committable, and then to the greatest one in the whole log. */
  lemma CommitScanIsSearch(cfg: Config, c: State, m: nat)
    requires Ordered(c) && 0 < c.term
    ensures var r := ScanCommit(cfg, c, LastIndex(c));
            && (r == c.commitIndex || (c.commitIndex < r <= LastIndex(c) && Committable(cfg, c, r)))
            && (c.commitIndex < m <= LastIndex(c) && Committable(cfg, c, m) ==> c.commitIndex < m <= r)
  {
    ScanFinds(cfg, c, LastIndex(c));
    if c.commitIndex < m <= LastIndex(c) && Committable(cfg, c, m) {
      ScanReaches(cfg, c, LastIndex(c), m);
    }
  }

  lemma {:induction false} TermScanReaches(c: State, t: nat, i: nat, m: nat)
    requires Ordered(c) && 0 < t && i <= LastIndex(c)
    ensures var r := LastIndexOfTerm(c, t, i);
            && r <= i && (0 < r ==> TermAt(c, r) == t)
            && (0 < m <= i && TermAt(c, m) == t ==> m <= r)
  {
    if 0 < i && TermAt(c, i) > t {
      TermScanReaches(c, t, i - 1, m);
    }
  }

  /** lastIndexOfTerm's scan: the greatest index, in the whole log as far as the core still sees it, that
      has the term; 0 exactly when there is none. */
  lemma TermScanIsSearch(c: State, t: nat, m: nat)
    requires Ordered(c) && 0 < t
    ensures var r := LastIndexOfTerm(c, t, LastIndex(c));
            && r <= LastIndex(c) && (0 < r ==> TermAt(c, r) == t)
            && (0 < m <= LastIndex(c) && TermAt(c, m) == t ==> m <= r)
  {
    TermScanReaches(c, t, LastIndex(c), m);
  }

  // ---- compaction, in every run ----

  lemma WellLoggedCore(h: Trail, v: Id, c: State)
    requires TrailInv(h) && CoreOK(h, v, c)
    ensures Compaction.WellLogged(c)
  {
    TrailOpen(h);
    assert NodeAt(h.book, v);
    forall i | 0 <= i < |Full(c)|
      ensures Full(c)[i].index == i + 1
    {
      LogShape(h.book, Full(c), i);
    }
  }

  lemma RealTerm(h: Trail, v: Id, c: State, i: nat)
    requires TrailInv(h) && CoreOK(h, v, c) && c.snap.lastIndex <= i
    ensures Compaction.Held(c, i)
  {
    WellLoggedCore(h, v, c);
    Compaction.FirstIndex(c);
    if i <= LastIndex(c) { TermsRise(h, v, c, i, i); }
  }

  lemma NumberedFrom(h: Trail, q: AppendRequest)
    requires TrailInv(h) && AppendOK(h, q)
    ensures Numbered(q.prevIndex, q.entries)
  {
    TrailOpen(h);
    assert LeadAt(h.book, q.term);
  }

  /** In every run: a node that receives an append starting at or above its snapshot does with it what it
      would have done had it never compacted. */
  lemma CompactionNeverShows(members: set<Id>, run: seq<Event>, i: nat, v: Id, q: AppendRequest)
    requires NO_NODE !in members && i <= |run| && v in At(members, run, i).nodes && At(members, run, i).nodes[v].up
    requires AskAppend(v, q) in At(members, run, i).net && At(members, run, i).nodes[v].core.snap.lastIndex <= q.prevIndex
    ensures var c := At(members, run, i).nodes[v].core;
            var (d, r) := HandleAppendEntries(c, q);
            var (e, s) := HandleAppendEntries(Compaction.Expand(c), q);
            && e == Compaction.Expand(d) && Compaction.SameAnswer(c.snap.lastIndex, r, s)
            && (r.conflictTerm == 0 ==> r == s)
  {
    var hs := Trace(members, run);
    var s := At(members, run, i);
    assert SimAt(members, run, hs, i);
    SimOpen(s, hs[i]);
    assert MessageOK(hs[i], AskAppend(v, q)) && NodeOK(hs[i], v, s.nodes[v]);
    WellLoggedCore(hs[i], v, s.nodes[v].core);
    NumberedFrom(hs[i], q);
    RealTerm(hs[i], v, s.nodes[v].core, q.prevIndex);
    Compaction.CompactionInvisible(s.nodes[v].core, q);
  }
}
