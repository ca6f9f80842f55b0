/** Compaction is invisible to replication.

    Expand undoes all compaction. A core and its expansion answer alike, and stay each other's
    expansion, as long as requests do not reach below the snapshot. */
module Compaction {
  import opened RaftLog
  import opened RaftCore

  /** The log is numbered from 1 without gaps and the snapshot stands for its first entries. */
  predicate WellLogged(c: State)
  {
    && |c.snap.covered| == c.snap.lastIndex <= c.lastDelivered && c.snap.lastTerm == LastTerm(c.snap.covered)
    && Numbered(0, Full(c))
  }

  /** The same core, had it never compacted. */
  function Expand(c: State): State
  {
    c.(snap := EMPTY_SNAPSHOT, entries := Full(c))
  }

  lemma ExpandIsWellLogged(c: State)
    requires WellLogged(c)
    ensures WellLogged(Expand(c)) && Full(Expand(c)) == Full(c)
  {
    assert [] + Full(c) == Full(c);
  }

  lemma FirstIndex(c: State)
    requires WellLogged(c)
    ensures |c.entries| > 0 ==> c.entries[0].index == c.snap.lastIndex + 1
    ensures LastIndex(c) == |Full(c)| && LastLogTerm(c) == LastTerm(Full(c))
  {
    if |c.entries| > 0 {
      assert c.entries[0] == Full(c)[c.snap.lastIndex];
      assert c.entries[|c.entries| - 1] == Full(c)[|Full(c)| - 1];
    } else {
      assert Full(c) == c.snap.covered;
    }
  }

  /** At or above its snapshot a core sees the terms of the whole log. */
  lemma SeesTerm(c: State, i: nat)
    requires WellLogged(c) && (i == 0 || c.snap.lastIndex <= i)
    ensures TermAt(c, i) == TermOf(Full(c), i)
  {
    FirstIndex(c);
    if 0 < i <= |Full(c)| {
      if i == c.snap.lastIndex {
        assert Full(c)[i - 1] == c.snap.covered[i - 1];
      } else {
        assert Full(c)[i - 1] == c.entries[i - 1 - c.snap.lastIndex];
      }
    }
  }

  /** So an expansion sees what the core sees, wherever the core still sees anything. */
  lemma SameView(c: State, i: nat)
    requires WellLogged(c) && (i == 0 || c.snap.lastIndex <= i)
    ensures TermAt(Expand(c), i) == TermAt(c, i)
    ensures LastIndex(Expand(c)) == LastIndex(c) && LastLogTerm(Expand(c)) == LastLogTerm(c)
  {
    ExpandIsWellLogged(c);
    FirstIndex(c);
    FirstIndex(Expand(c));
    SeesTerm(c, i);
    SeesTerm(Expand(c), i);
  }

  /** Compacting is a stutter step. */
  lemma CompactStutters(c: State, applied: nat, image: Log)
    requires WellLogged(c) && c.lastDelivered <= |Full(c)|
    ensures Expand(Compact(c, applied, image)) == Expand(c) && WellLogged(Compact(c, applied, image))
  {
    if c.snap.lastIndex < applied <= c.lastDelivered {
      var k := applied - c.snap.lastIndex;
      assert c.entries == c.entries[..k] + c.entries[k..];
      SeesTerm(c, applied);
      assert Full(c)[..applied] == c.snap.covered + c.entries[..k];
    }
  }

  // ---- elections ----

  lemma StepDownAlike(c: State, t: nat)
    ensures StepDown(Expand(c), t) == Expand(StepDown(c, t))
  {
  }

  lemma DecidesAlike(c: State, req: VoteRequest)
    requires WellLogged(c)
    ensures LogUpToDate(Expand(c), req.lastIndex, req.lastTerm) == LogUpToDate(c, req.lastIndex, req.lastTerm)
  {
    SameView(c, 0);
  }

  /** A compacted core votes as if it had not compacted. */
  lemma VotesAlike(c: State, req: VoteRequest, recent: bool)
    requires WellLogged(c)
    ensures HandleRequestVote(Expand(c), req, recent).1 == HandleRequestVote(c, req, recent).1
    ensures HandleRequestVote(Expand(c), req, recent).0 == Expand(HandleRequestVote(c, req, recent).0)
  {
    if req.term > c.term && !req.preVote {
      StepDownAlike(c, req.term);
      DecidesAlike(StepDown(c, req.term), req);
    } else {
      DecidesAlike(c, req);
    }
  }

  // ---- replication ----

  lemma RecognizeAlike(c: State, term: nat, leader: Id)
    ensures Recognize(Expand(c), term, leader) == Expand(Recognize(c, term, leader))
  {
    if term > c.term {
      StepDownAlike(c, term);
    }
  }

  lemma {:induction false} FirstNewAlike(c: State, es: Log, p: nat, i: nat)
    requires WellLogged(c) && Numbered(p, es) && c.snap.lastIndex <= p && i <= |es|
    ensures FirstNew(Expand(c), es, i) == FirstNew(c, es, i)
    decreases |es| - i
  {
    if i < |es| {
      SameView(c, es[i].index);
      FirstNewAlike(c, es, p, i + 1);
    }
  }

  /** Cutting after the first k entries above the snapshot. */
  lemma TruncateIs(c: State, es: Log, k: nat)
    requires WellLogged(c) && es != [] && es[0].index == c.snap.lastIndex + k + 1 <= LastIndex(c) + 1
    ensures k <= |c.entries|
    ensures TruncateAndAppend(c, es) ==
            if es[0].index <= c.commitIndex then c.(halted := true) else c.(entries := c.entries[..k] + es)
  {
    FirstIndex(c);
    if es[0].index == LastIndex(c) + 1 {
      assert c.entries[..k] == c.entries;
    }
  }

  lemma TruncateAlike(c: State, es: Log)
    requires WellLogged(c) && es != [] && c.snap.lastIndex < es[0].index <= LastIndex(c) + 1
    ensures TruncateAndAppend(Expand(c), es) == Expand(TruncateAndAppend(c, es))
  {
    SameView(c, 0);
    ExpandIsWellLogged(c);
    var n, k := es[0].index - 1, es[0].index - 1 - c.snap.lastIndex;
    TruncateIs(c, es, k);
    TruncateIs(Expand(c), es, n);
    if c.commitIndex <= n {
      SpliceAlike(c, es, n, k);
    }
  }

  lemma SpliceAlike(c: State, es: Log, n: nat, k: nat)
    requires n == |c.snap.covered| + k && k <= |c.entries|
    ensures Expand(c).(entries := Expand(c).entries[..n] + es) == Expand(c.(entries := c.entries[..k] + es))
  {
    Splice(c.snap.covered, c.entries, es, n);
  }

  lemma Splice(covered: Log, entries: Log, es: Log, n: nat)
    requires |covered| <= n <= |covered + entries|
    ensures (covered + entries)[..n] + es == covered + (entries[..n - |covered|] + es)
  {
  }

  lemma TruncatedIsWellLogged(c: State, es: Log)
    requires WellLogged(c) && es != [] && c.snap.lastIndex < es[0].index <= LastIndex(c) + 1 && Numbered(es[0].index - 1, es)
    ensures var d := TruncateAndAppend(c, es);
            WellLogged(d) && d.snap == c.snap && (!d.halted ==> LastIndex(d) == es[0].index - 1 + |es|)
  {
    var n, k := es[0].index - 1, es[0].index - 1 - c.snap.lastIndex;
    TruncateIs(c, es, k);
    FirstIndex(c);
    if !(es[0].index <= c.commitIndex) {
      var d := TruncateAndAppend(c, es);
      assert Full(d) == Full(c)[..n] + es;
      FirstIndex(d);
    }
  }

  lemma {:induction false} FirstNewFits(c: State, es: Log, p: nat, i: nat)
    requires Numbered(p, es) && i <= |es| && p + i <= LastIndex(c)
    ensures var j := FirstNew(c, es, i); if j < |es| then es[j].index <= LastIndex(c) + 1 else p + |es| <= LastIndex(c)
    decreases |es| - i
  {
    if i < |es| && !IsNew(c, es[i]) {
      FirstNewFits(c, es, p, i + 1);
    }
  }

  lemma StoreAlike(c: State, es: Log, p: nat)
    requires WellLogged(c) && Numbered(p, es) && c.snap.lastIndex <= p <= LastIndex(c) && !c.halted
    ensures StoreNew(Expand(c), es) == Expand(StoreNew(c, es))
    ensures var d := StoreNew(c, es); WellLogged(d) && d.snap == c.snap && (!d.halted ==> p + |es| <= LastIndex(d))
  {
    FirstNewAlike(c, es, p, 0);
    FirstNewFits(c, es, p, 0);
    var i := FirstNew(c, es, 0);
    if i < |es| {
      TruncateAlike(c, es[i..]);
      TruncatedIsWellLogged(c, es[i..]);
    }
  }

  lemma DeliverIs(c: State)
    requires WellLogged(c) && c.commitIndex <= |Full(c)|
    ensures DeliverCommitted(c) ==
            if c.commitIndex <= c.lastDelivered then c
            else c.(committed := c.committed + Full(c)[c.lastDelivered..c.commitIndex], lastDelivered := c.commitIndex)
  {
    FirstIndex(c);
    var b := c.snap.lastIndex;
    if c.lastDelivered < c.commitIndex {
      assert Full(c)[c.lastDelivered..c.commitIndex] == c.entries[c.lastDelivered - b..c.commitIndex - b];
    }
  }

  lemma DeliverAlike(c: State)
    requires WellLogged(c) && c.commitIndex <= |Full(c)|
    ensures DeliverCommitted(Expand(c)) == Expand(DeliverCommitted(c))
  {
    ExpandIsWellLogged(c);
    DeliverIs(c);
    DeliverIs(Expand(c));
  }

  lemma AdvanceAlike(c: State, leaderCommit: nat, n: nat)
    requires WellLogged(c) && n <= LastIndex(c)
    ensures AdvanceTo(Expand(c), leaderCommit, n) == Expand(AdvanceTo(c, leaderCommit, n))
  {
    FirstIndex(c);
    if leaderCommit > c.commitIndex {
      var d := c.(commitIndex := if leaderCommit < n then leaderCommit else n);
      assert Full(d) == Full(c);
      DeliverAlike(d);
    }
  }

  /** The answers of a core whose snapshot ends at base and of its expansion: the same, but that the hint
      naming the first entry of a conflicting term does not reach below the snapshot. */
  predicate SameAnswer(base: nat, r: AppendReply, s: AppendReply)
  {
    && r == s.(conflictIndex := r.conflictIndex) && (r.success ==> r == s)
    && (r.conflictTerm != 0 ==> r.conflictIndex == if s.conflictIndex < base then base else s.conflictIndex)
  }

  lemma {:induction false} FirstIndexAlike(c: State, t: nat, from: nat)
    requires WellLogged(c) && c.snap.lastIndex <= from && 0 < t
    ensures FirstIndexOfTerm(Expand(c), t, from) <= from
    ensures FirstIndexOfTerm(c, t, from) ==
            var i := FirstIndexOfTerm(Expand(c), t, from); if i < c.snap.lastIndex then c.snap.lastIndex else i
    decreases from
  {
    if c.snap.lastIndex < from {
      SameView(c, from - 1);
      if from > 1 && TermAt(c, from - 1) == t { FirstIndexAlike(c, t, from - 1); }
    } else {
      FirstIndex(c);
      FirstIndexBelow(Expand(c), t, from);
    }
  }

  lemma {:induction false} FirstIndexBelow(c: State, t: nat, from: nat)
    ensures FirstIndexOfTerm(c, t, from) <= from
  {
    if from > 1 && TermAt(c, from - 1) == t { FirstIndexBelow(c, t, from - 1); }
  }

  lemma ConflictAlike(c: State, req: AppendRequest)
    requires WellLogged(c) && (req.prevIndex == 0 || c.snap.lastIndex <= req.prevIndex)
    ensures Conflict(Expand(c), req).None? <==> Conflict(c, req).None?
    ensures Conflict(c, req).Some? ==>
              !Conflict(c, req).value.success && SameAnswer(c.snap.lastIndex, Conflict(c, req).value, Conflict(Expand(c), req).value)
    ensures Conflict(c, req).Some? && Held(c, req.prevIndex) && Conflict(c, req).value.conflictTerm == 0 ==>
              Conflict(c, req) == Conflict(Expand(c), req)
  {
    SameView(c, req.prevIndex);
    var t := TermAt(c, req.prevIndex);
    if 0 < req.prevIndex && 0 < t {
      FirstIndexAlike(c, t, req.prevIndex);
    }
  }

  /** The core holds no entry of this index, or one of a real term. */
  predicate Held(c: State, i: nat)
  {
    i == 0 || LastIndex(c) < i || TermAt(c, i) != 0
  }

  /** Given a request that starts at or above the snapshot, a compacted core and an uncompacted one with
      the same log give the same answer and end with the same log, the same commit index and the same
      deliveries. Only a conflict hint may differ, and by no more than the snapshot hides. */
  lemma CompactionInvisible(c: State, req: AppendRequest)
    requires WellLogged(c) && !c.halted && Numbered(req.prevIndex, req.entries) && c.snap.lastIndex <= req.prevIndex
    ensures var (d, r) := HandleAppendEntries(c, req);
            var (e, s) := HandleAppendEntries(Expand(c), req);
            && e == Expand(d) && SameAnswer(c.snap.lastIndex, r, s)
            && (Held(c, req.prevIndex) && r.conflictTerm == 0 ==> r == s)
  {
    RecognizeAlike(c, req.term, req.leader);
    ReplicateAlike(Recognize(c, req.term, req.leader), req);
  }

  lemma ReplicateAlike(c: State, req: AppendRequest)
    requires WellLogged(c) && !c.halted && Numbered(req.prevIndex, req.entries) && c.snap.lastIndex <= req.prevIndex
    ensures Replicate(Expand(c), req).0 == Expand(Replicate(c, req).0)
    ensures SameAnswer(c.snap.lastIndex, Replicate(c, req).1, Replicate(Expand(c), req).1)
    ensures Held(c, req.prevIndex) && Replicate(c, req).1.conflictTerm == 0 ==> Replicate(c, req).1 == Replicate(Expand(c), req).1
  {
    ConflictAlike(c, req);
    if Conflict(c, req).None? {
      StoreAlike(c, req.entries, req.prevIndex);
      AcceptAlike(c, req);
    }
  }

  lemma AcceptAlike(c: State, req: AppendRequest)
    requires Conflict(c, req).None? && Conflict(Expand(c), req).None?
    requires StoreNew(Expand(c), req.entries) == Expand(StoreNew(c, req.entries))
    requires var d := StoreNew(c, req.entries); WellLogged(d) && (!d.halted ==> req.prevIndex + |req.entries| <= LastIndex(d))
    ensures Replicate(Expand(c), req) == (Expand(Replicate(c, req).0), Replicate(c, req).1)
  {
    var d, n := StoreNew(c, req.entries), req.prevIndex + |req.entries|;
    ReplicateIs(c, req, d, n);
    ReplicateIs(Expand(c), req, Expand(d), n);
    if !d.halted {
      AdvanceAlike(d, req.leaderCommit, n);
    }
  }

  lemma ReplicateIs(c: State, req: AppendRequest, d: State, n: nat)
    requires Conflict(c, req).None? && StoreNew(c, req.entries) == d && n == req.prevIndex + |req.entries|
    ensures Replicate(c, req) ==
            (if d.halted then d else AdvanceTo(d, req.leaderCommit, n), AppendReply(c.term, req.seqNo, true, 0, 0))
  {
  }

  /** Below its snapshot, and above index 0, a compacted core rejects what an uncompacted one may accept. */
  lemma BelowSnapshotRejected(c: State, req: AppendRequest)
    requires WellLogged(c) && 0 < req.prevIndex < c.snap.lastIndex && 0 < req.prevTerm && c.term <= req.term
    ensures !HandleAppendEntries(c, req).1.success
    ensures HandleAppendEntries(c, req).0 == Recognize(c, req.term, req.leader)
  {
    RecognizeAlike(c, req.term, req.leader);
    FirstIndex(Recognize(c, req.term, req.leader));
  }
}
