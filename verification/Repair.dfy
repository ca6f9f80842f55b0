/** Conflict repair terminates.

    A leader and one follower exchange appends and answers. Each rejection moves nextIndex strictly
    down, never past the point up to which the two logs agree; each success moves matchIndex strictly
    up; and the exchange ends with the leader's whole log in place, nothing before the first
    difference having been touched. */
module Repair {
  import opened RaftLog
  import opened RaftCore

  // ---- two logs ----

  predicate Proper(x: Log)
  {
    Numbered(0, x) && forall i :: 0 <= i < |x| ==> 0 < x[i].term
  }

  predicate Rising(x: Log)
  {
    forall i, j :: 0 <= i <= j < |x| ==> x[i].term <= x[j].term
  }

  /** Log Matching between two logs. */
  ghost predicate Matching(x: Log, y: Log)
  {
    forall i: nat {:trigger MatchAt(x, y, i)} :: MatchAt(x, y, i)
  }

  predicate MatchAt(x: Log, y: Log, i: nat)
  {
    i < |x| && i < |y| && x[i].term == y[i].term ==> x[..i + 1] == y[..i + 1]
  }

  /** The length of the longest common prefix, given that the first i entries are common. */
  function AgreementFrom(x: Log, y: Log, i: nat): (a: nat)
    requires i <= |x| && i <= |y| && x[..i] == y[..i]
    ensures a <= |x| && a <= |y| && x[..a] == y[..a]
    ensures a < |x| && a < |y| ==> x[a] != y[a]
    decreases |x| - i
  {
    if i < |x| && i < |y| && x[i] == y[i] then
      assert x[..i + 1] == x[..i] + [x[i]] && y[..i + 1] == y[..i] + [y[i]];
      AgreementFrom(x, y, i + 1)
    else i
  }

  /** The length of the longest common prefix. */
  function Agreement(x: Log, y: Log): (a: nat)
    ensures a <= |x| && a <= |y| && x[..a] == y[..a]
    ensures a < |x| && a < |y| ==> x[a] != y[a]
  {
    AgreementFrom(x, y, 0)
  }

  lemma AgreementCovers(x: Log, y: Log, n: nat)
    requires n <= |x| && n <= |y| && x[..n] == y[..n]
    ensures n <= Agreement(x, y)
  {
    SameAt(x, y, n, Agreement(x, y));
  }

  lemma SameAt(x: Log, y: Log, n: nat, i: nat)
    requires n <= |x| && n <= |y| && x[..n] == y[..n]
    ensures i < n ==> x[i] == y[i]
  {
    if i < n {
      assert x[i] == x[..n][i] == y[..n][i] == y[i];
    }
  }

  /** Two logs agree at an index if and only if it lies within their common prefix. */
  lemma AgreesIff(x: Log, y: Log, i: nat)
    requires Matching(x, y) && 0 < i <= |x| && i <= |y|
    ensures x[i - 1].term == y[i - 1].term <==> i <= Agreement(x, y)
  {
    var a := Agreement(x, y);
    if x[i - 1].term == y[i - 1].term {
      OneMoreAgrees(x, y, i - 1);
      AgreementCovers(x, y, i);
    }
    SameAt(x, y, a, i - 1);
  }

  // ---- an uncompacted leader and an uncompacted follower of its term ----

  ghost predicate Facing(l: State, f: State)
  {
    && l.role.Leader? && f.role.Follower? && f.term == l.term && !l.halted && !f.halted
    && l.snap == EMPTY_SNAPSHOT && f.snap == EMPTY_SNAPSHOT
    && Proper(l.entries) && Proper(f.entries) && Rising(l.entries) && Rising(f.entries)
    && Matching(l.entries, f.entries) && l.entries != []
    && f.commitIndex <= Agreement(l.entries, f.entries) && l.commitIndex <= |l.entries|
  }

  lemma Sees(c: State, i: nat)
    requires c.snap == EMPTY_SNAPSHOT && Proper(c.entries)
    ensures LastIndex(c) == |c.entries| && TermAt(c, i) == TermOf(c.entries, i)
  {
  }

  /** The follower accepts a request exactly when it starts within the common prefix. */
  lemma AcceptsIff(cfg: Config, l: State, f: State, next: nat)
    requires Facing(l, f) && 0 < next <= |l.entries| + 1
    ensures Conflict(f, AppendFor(cfg, l, next)).None? <==> next - 1 <= Agreement(l.entries, f.entries)
  {
    Sees(l, next - 1);
    Sees(f, next - 1);
    if 0 < next - 1 <= |f.entries| {
      AgreesIff(l.entries, f.entries, next - 1);
    }
  }

  /** The hint's first index of a term starts a run of that term that ends at `from`. */
  lemma {:induction false} FirstIndexIs(f: State, t: nat, from: nat, a: nat)
    requires f.snap == EMPTY_SNAPSHOT && Proper(f.entries) && a < from <= |f.entries|
    requires 0 < a ==> TermAt(f, a) != t
    ensures a < FirstIndexOfTerm(f, t, from) <= from
  {
    if from > 1 && TermAt(f, from - 1) == t {
      FirstIndexIs(f, t, from - 1, a);
    }
  }

  lemma {:induction false} LastIndexIs(l: State, t: nat, i: nat, m: nat)
    requires l.snap == EMPTY_SNAPSHOT && Proper(l.entries) && Rising(l.entries) && i <= |l.entries| && 0 < t
    ensures var r := LastIndexOfTerm(l, t, i);
            r <= i && (0 < r ==> TermOf(l.entries, r) == t) && (0 < m <= i && TermOf(l.entries, m) == t ==> m <= r)
  {
    if i > 0 {
      Sees(l, i);
      if TermAt(l, i) > t {
        LastIndexIs(l, t, i - 1, m);
      }
    }
  }

  /** A hint never points at or below the common prefix. */
  lemma HintAboveAgreement(cfg: Config, l: State, f: State, next: nat)
    requires Facing(l, f) && 0 < next <= |l.entries| + 1 && Conflict(f, AppendFor(cfg, l, next)).Some?
    ensures var r := Conflict(f, AppendFor(cfg, l, next)).value;
            var last := if r.conflictTerm != 0 then LastIndexOfTerm(l, r.conflictTerm, LastIndex(l)) else 0;
            Agreement(l.entries, f.entries) < if last != 0 then last + 1 else r.conflictIndex
  {
    var x, y, p := l.entries, f.entries, next - 1;
    var a := Agreement(x, y);
    Sees(l, p);
    Sees(f, p);
    Sees(l, 0);
    AcceptsIff(cfg, l, f, next);
    if p <= |y| {
      var t := y[p - 1].term;
      if 0 < a {
        SameAt(x, y, a, a - 1);
      }
      LastIndexIs(l, t, |x|, a);
      if LastIndexOfTerm(l, t, |x|) == 0 {
        Sees(f, a);
        FirstIndexIs(f, t, p, a);
      }
    }
  }

  /** Every rejection moves nextIndex strictly down, and never past the point of agreement; at
      nextIndex 1 there is no rejection. */
  lemma RejectionLowers(cfg: Config, l: State, f: State, peer: Id)
    requires Facing(l, f) && peer in l.nextIndex && 0 < l.nextIndex[peer] <= |l.entries| + 1
    requires Conflict(f, AppendFor(cfg, l, l.nextIndex[peer])).Some?
    ensures var r := Conflict(f, AppendFor(cfg, l, l.nextIndex[peer])).value;
            Agreement(l.entries, f.entries) < Backoff(l, peer, r) < l.nextIndex[peer]
  {
    AcceptsIff(cfg, l, f, l.nextIndex[peer]);
    HintAboveAgreement(cfg, l, f, l.nextIndex[peer]);
  }

  // ---- acceptance ----

  /** What comes before the first new entry of a batch is shared. */
  lemma {:induction false} FirstNewAgrees(f: State, x: Log, es: Log, p: nat, i: nat)
    requires f.snap == EMPTY_SNAPSHOT && Proper(f.entries) && Proper(x) && Matching(x, f.entries)
    requires i <= |es| && p + |es| <= |x| && es == x[p..p + |es|]
    requires p + i <= |f.entries| && x[..p + i] == f.entries[..p + i]
    ensures var j := p + FirstNew(f, es, i);
            j <= |f.entries| && x[..j] == f.entries[..j] && (j < p + |es| && j < |f.entries| ==> x[j].term != f.entries[j].term)
    decreases |es| - i
  {
    if i < |es| {
      Sees(f, p + i + 1);
      assert es[i] == x[p + i];
      if !IsNew(f, es[i]) {
        OneMoreAgrees(x, f.entries, p + i);
        FirstNewAgrees(f, x, es, p, i + 1);
      }
    }
  }

  lemma OneMoreAgrees(x: Log, y: Log, i: nat)
    requires Matching(x, y) && i < |x| && i < |y| && x[i].term == y[i].term
    ensures x[..i + 1] == y[..i + 1]
  {
    assert MatchAt(x, y, i);
  }

  lemma CutAt(f: State, x: Log, i: nat, n: nat)
    requires f.snap == EMPTY_SNAPSHOT && Proper(f.entries) && Proper(x) && f.commitIndex <= i
    requires i < n <= |x| && i <= |f.entries| && x[..i] == f.entries[..i]
    ensures TruncateAndAppend(f, x[i..n]) == f.(entries := x[..n])
  {
    Sees(f, 0);
    assert f.entries[..i] + x[i..n] == x[..n];
    if i == |f.entries| {
      assert f.entries[..i] == f.entries;
    }
  }

  /** Storing from the position i of the first new entry on. */
  lemma MergesFrom(f: State, x: Log, i: nat, n: nat)
    requires f.snap == EMPTY_SNAPSHOT && Proper(f.entries) && Proper(x) && f.commitIndex <= Agreement(x, f.entries)
    requires i <= n <= |x| && i <= |f.entries| && x[..i] == f.entries[..i]
    requires i < n && i < |f.entries| ==> x[i].term != f.entries[i].term
    ensures (if i == n then f else TruncateAndAppend(f, x[i..n])) == f.(entries := Merge(f.entries, x[..n]))
  {
    if i < n {
      SameAt(x, f.entries, Agreement(x, f.entries), i);
      CutAt(f, x, i, n);
      NotPrefix(x, f.entries, i, n);
    }
  }

  lemma WithinAgreement(x: Log, y: Log, p: nat)
    requires p <= Agreement(x, y)
    ensures x[..p] == y[..p]
  {
    var a := Agreement(x, y);
    assert x[..p] == x[..a][..p] && y[..p] == y[..a][..p];
  }

  /** Storing x's entries p+1..n into a log that shares x's first p merges x's first n into it. */
  lemma AcceptMerges(f: State, x: Log, p: nat, n: nat)
    requires f.snap == EMPTY_SNAPSHOT && Proper(f.entries) && Proper(x) && Matching(x, f.entries)
    requires p <= n <= |x| && p <= Agreement(x, f.entries) && f.commitIndex <= Agreement(x, f.entries)
    ensures StoreNew(f, x[p..n]) == f.(entries := Merge(f.entries, x[..n]))
  {
    var es := x[p..n];
    WithinAgreement(x, f.entries, p);
    FirstNewAgrees(f, x, es, p, 0);
    var j := FirstNew(f, es, 0);
    SliceTail(x, p, j, n);
    MergesFrom(f, x, p + j, n);
  }

  lemma SliceTail(x: Log, p: nat, j: nat, n: nat)
    requires p + j <= n <= |x|
    ensures x[p..n][j..] == x[p + j..n]
  {
  }

  lemma NotPrefix(x: Log, y: Log, i: nat, n: nat)
    requires i < n <= |x| && (i < |y| ==> x[i] != y[i])
    ensures !(x[..n] <= y)
  {
    PrefixAt(x[..n], y, i);
  }

  // ---- rounds ----

  // One round: the leader sends what it would send next, the follower answers, the leader takes the
  // answer. The two calls are deterministic; stating that every outcome is the given one, rather
  // than equating, keeps their bodies out of the proofs that only chain rounds.

  predicate Outcome(f: State, q: AppendRequest, d: State, s: AppendReply)
  {
    HandleAppendEntries(f, q) == (d, s)
  }

  /** The follower's answer to q is r, and leaves it as g. */
  ghost predicate Gives(f: State, q: AppendRequest, g: State, r: AppendReply)
  {
    forall d, s {:trigger Outcome(f, q, d, s)} :: Outcome(f, q, d, s) ==> d == g && s == r
  }

  predicate Succeeded(cfg: Config, l: State, peer: Id, seqNo: nat, n: nat, d: State)
  {
    HandleSuccess(cfg, l, peer, seqNo, n) == d
  }

  predicate Rejected(cfg: Config, l: State, peer: Id, r: AppendReply, d: State)
  {
    HandleRejection(cfg, l, peer, r) == d
  }

  ghost predicate Succeeds(cfg: Config, l: State, peer: Id, seqNo: nat, n: nat, l1: State)
  {
    forall d {:trigger Succeeded(cfg, l, peer, seqNo, n, d)} :: Succeeded(cfg, l, peer, seqNo, n, d) ==> d == l1
  }

  ghost predicate Rejects(cfg: Config, l: State, peer: Id, r: AppendReply, l1: State)
  {
    forall d {:trigger Rejected(cfg, l, peer, r, d)} :: Rejected(cfg, l, peer, r, d) ==> d == l1
  }

  /** The answer r, to a request of the leader's current term that reached up to index n, leaves the
      leader as l1. */
  ghost predicate Takes(cfg: Config, l: State, peer: Id, n: nat, r: AppendReply, l1: State)
  {
    && (r.success ==> Succeeds(cfg, l, peer, r.seqNo, n, l1))
    && (!r.success ==> Rejects(cfg, l, peer, r, l1))
  }

  predicate Sends(cfg: Config, l: State, peer: Id, q: AppendRequest)
  {
    var next := if Get(l.nextIndex, peer) == 0 then 1 else l.nextIndex[peer];
    l.snap.lastIndex < next && q == AppendFor(cfg, l, next)
  }

  /** The leader sends q, which reaches up to index n, the follower answers r, the leader takes it. */
  ghost predicate RoundWith(cfg: Config, l: State, f: State, peer: Id, l1: State, f1: State,
                            q: AppendRequest, n: nat, r: AppendReply)
  {
    && Sends(cfg, l, peer, q) && n == q.prevIndex + |q.entries| && Gives(f, q, f1, r)
    && Takes(cfg, l, peer, n, r, l1)
  }

  /** One round takes leader and follower from (l, f) to (l1, f1). */
  ghost predicate Round(cfg: Config, l: State, f: State, peer: Id, l1: State, f1: State)
  {
    exists q, n, r :: RoundWith(cfg, l, f, peer, l1, f1, q, n, r)
  }

  datatype Pair = Pair(l: State, f: State)

  ghost predicate RoundAt(cfg: Config, ps: seq<Pair>, peer: Id, i: nat)
  {
    i + 1 < |ps| ==> Round(cfg, ps[i].l, ps[i].f, peer, ps[i + 1].l, ps[i + 1].f)
  }

  /** A sequence of rounds. */
  ghost predicate Rounds(cfg: Config, ps: seq<Pair>, peer: Id)
  {
    ps != [] && forall i: nat {:trigger RoundAt(cfg, ps, peer, i)} :: RoundAt(cfg, ps, peer, i)
  }

  lemma RoundsCons(cfg: Config, p: Pair, ps: seq<Pair>, peer: Id)
    requires Rounds(cfg, ps, peer) && Round(cfg, p.l, p.f, peer, ps[0].l, ps[0].f)
    ensures Rounds(cfg, [p] + ps, peer)
  {
    forall i: nat
      ensures RoundAt(cfg, [p] + ps, peer, i)
    {
      if i > 0 { assert RoundAt(cfg, ps, peer, i - 1); }
    }
  }

  ghost predicate Exchanging(l: State, f: State, peer: Id)
  {
    && Facing(l, f) && peer in l.nextIndex && 0 < l.nextIndex[peer] <= |l.entries| + 1
    && Get(l.matchIndex, peer) < l.nextIndex[peer] && Get(l.matchIndex, peer) <= Agreement(l.entries, f.entries)
  }

  /** d leads the same term with the same log as c. */
  predicate Still(c: State, d: State)
  {
    && d.role == c.role && d.term == c.term && d.snap == c.snap && d.entries == c.entries
    && (c.snap == EMPTY_SNAPSHOT && Proper(c.entries) && !c.halted && c.commitIndex <= |c.entries| ==>
          !d.halted && d.commitIndex <= |d.entries|)
  }

  lemma AckStill(cfg: Config, l: State, from: Id, seqNo: nat)
    ensures var d := NoteFreshAck(cfg, l, from, seqNo);
            Still(l, d) && d.nextIndex == l.nextIndex && d.matchIndex == l.matchIndex
  {
  }

  lemma CommitStill(cfg: Config, l: State)
    ensures var d := MaybeAdvanceCommit(cfg, l);
            Still(l, d) && d.nextIndex == l.nextIndex && d.matchIndex == l.matchIndex
  {
    if l.snap == EMPTY_SNAPSHOT && Proper(l.entries) && l.commitIndex <= |l.entries| {
      Sees(l, 0);
      DeliverStill(l.(commitIndex := ScanCommit(cfg, l, LastIndex(l))));
    }
  }

  lemma DeliverStill(l: State)
    requires l.snap == EMPTY_SNAPSHOT && Proper(l.entries) && l.commitIndex <= |l.entries|
    ensures DeliverCommitted(l).halted == l.halted && DeliverCommitted(l).commitIndex == l.commitIndex
  {
  }

  lemma AdvanceStill(cfg: Config, l: State, from: Id, m: nat)
    requires m > Get(l.matchIndex, from)
    ensures var d := Advance(cfg, l, from, m);
            Still(l, d) && d.nextIndex == l.nextIndex[from := m + 1] && d.matchIndex == l.matchIndex[from := m]
  {
    CommitStill(cfg, l.(matchIndex := l.matchIndex[from := m], nextIndex := l.nextIndex[from := m + 1]));
  }

  lemma FollowUpStill(cfg: Config, l: State, from: Id)
    ensures var d := FollowUp(cfg, l, from);
            Still(l, d) && d.nextIndex == l.nextIndex && d.matchIndex == l.matchIndex
  {
  }

  lemma SuccessStill(cfg: Config, l: State, from: Id, seqNo: nat, m: nat)
    requires m > Get(l.matchIndex, from)
    ensures var d := HandleSuccess(cfg, l, from, seqNo, m);
            Still(l, d) && d.nextIndex == l.nextIndex[from := m + 1] && d.matchIndex == l.matchIndex[from := m]
  {
    AckStill(cfg, l, from, seqNo);
    var d := NoteFreshAck(cfg, l, from, seqNo);
    AdvanceStill(cfg, d, from, m);
    FollowUpStill(cfg, Advance(cfg, d, from, m), from);
  }

  lemma RejectionStill(cfg: Config, l: State, from: Id, reply: AppendReply)
    ensures var d := HandleRejection(cfg, l, from, reply);
            Still(l, d) && d.nextIndex == l.nextIndex[from := Backoff(l, from, reply)] && d.matchIndex == l.matchIndex
  {
  }

  /** Moving the commit index up to n, in a log that reaches n. */
  lemma AdvanceKeeps(e: State, leaderCommit: nat, n: nat)
    requires e.snap == EMPTY_SNAPSHOT && Proper(e.entries) && n <= |e.entries| && !e.halted
    ensures var d := AdvanceTo(e, leaderCommit, n);
            && d.role == e.role && d.term == e.term && !d.halted && d.snap == e.snap && d.entries == e.entries
            && (d.commitIndex == e.commitIndex || d.commitIndex <= n)
  {
    Sees(e, 0);
  }

  /** What a follower does with a request it accepts, told from the state e after storing. */
  lemma AcceptedIs(f: State, q: AppendRequest, e: State)
    requires f.role.Follower? && f.term == q.term && Conflict(f, q).None? && !e.halted
    requires StoreNew(f.(leaderId := q.leader), q.entries) == e
    ensures HandleAppendEntries(f, q)
         == (AdvanceTo(e, q.leaderCommit, q.prevIndex + |q.entries|), AppendReply(f.term, q.seqNo, true, 0, 0))
  {
    var g := f.(leaderId := q.leader);
    assert Recognize(f, q.term, q.leader) == g;
    assert Conflict(g, q).None?;
  }

  lemma FollowerAccepts(f: State, q: AppendRequest, x: Log, n: nat) returns (d: State, r: AppendReply)
    requires f.role.Follower? && f.term == q.term && !f.halted && f.snap == EMPTY_SNAPSHOT
    requires Proper(f.entries) && Proper(x) && Matching(x, f.entries) && f.commitIndex <= Agreement(x, f.entries)
    requires q.prevIndex <= n <= |x| && q.entries == x[q.prevIndex..n] && q.prevIndex <= Agreement(x, f.entries)
    requires Conflict(f, q).None?
    ensures Gives(f, q, d, r) && d.role.Follower? && d.term == f.term && !d.halted && d.snap == f.snap
    ensures d.entries == Merge(f.entries, x[..n]) && (d.commitIndex == f.commitIndex || d.commitIndex <= n)
    ensures r == AppendReply(f.term, q.seqNo, true, 0, 0)
  {
    var g := f.(leaderId := q.leader);
    var e := g.(entries := Merge(f.entries, x[..n]));
    AcceptMerges(g, x, q.prevIndex, n);
    AcceptedIs(f, q, e);
    MergeNumbered(x, f.entries, n);
    AdvanceKeeps(e, q.leaderCommit, n);
    d, r := AdvanceTo(e, q.leaderCommit, n), AppendReply(f.term, q.seqNo, true, 0, 0);
  }

  lemma MergeNumbered(x: Log, y: Log, n: nat)
    requires Proper(x) && Proper(y) && n <= |x|
    ensures Proper(Merge(y, x[..n])) && n <= |Merge(y, x[..n])|
  {
  }

  lemma FollowerRejects(f: State, q: AppendRequest) returns (g: State)
    requires f.role.Follower? && f.term == q.term && Conflict(f, q).Some?
    ensures g == f.(leaderId := q.leader) && Gives(f, q, g, Conflict(f, q).value)
    ensures !Conflict(f, q).value.success && Conflict(f, q).value.term == f.term
  {
    g := f.(leaderId := q.leader);
    assert Recognize(f, q.term, q.leader) == g;
    SameFirstIndex(f, g, TermAt(f, q.prevIndex), q.prevIndex);
  }

  lemma {:induction false} SameFirstIndex(f: State, g: State, t: nat, from: nat)
    requires g.snap == f.snap && g.entries == f.entries
    ensures FirstIndexOfTerm(g, t, from) == FirstIndexOfTerm(f, t, from)
  {
    if from > 1 && TermAt(f, from - 1) == t {
      SameFirstIndex(f, g, t, from - 1);
    }
  }

  /** Merging more of the same log. */
  lemma MergeFacts(x: Log, y: Log, n: nat)
    requires n <= |x| && Matching(x, y) && Rising(x) && Rising(y)
    ensures var z := Merge(y, x[..n]);
            && Matching(x, z) && Rising(z) && n <= Agreement(x, z) && Agreement(x, y) <= Agreement(x, z)
            && Merge(z, x) == Merge(y, x)
  {
    var z := Merge(y, x[..n]);
    AgreementCovers(x, z, n);
    if x[..n] <= y {
    } else {
      WithinAgreement(x, y, Agreement(x, y));
      AgreementShort(x, y, n);
    }
  }

  lemma AgreementShort(x: Log, y: Log, n: nat)
    requires n <= |x| && !(x[..n] <= y)
    ensures Agreement(x, y) < n && !(x <= y)
  {
    PrefixTrans(x[..n], x, x);
    if n <= Agreement(x, y) {
      WithinAgreement(x, y, n);
    }
    ShorterPrefix(x, y, n);
  }

  lemma ShorterPrefix(x: Log, y: Log, n: nat)
    requires n <= |x|
    ensures x <= y ==> x[..n] <= y
  {
  }

  lemma SuccessMade(cfg: Config, l: State, peer: Id, seqNo: nat, n: nat) returns (l1: State)
    requires n > Get(l.matchIndex, peer)
    ensures Succeeds(cfg, l, peer, seqNo, n, l1) && Still(l, l1)
    ensures l1.nextIndex == l.nextIndex[peer := n + 1] && l1.matchIndex == l.matchIndex[peer := n]
  {
    SuccessStill(cfg, l, peer, seqNo, n);
    l1 := HandleSuccess(cfg, l, peer, seqNo, n);
  }

  lemma LeaderTakesSuccess(cfg: Config, l: State, peer: Id, n: nat, r: AppendReply) returns (l1: State)
    requires r.success && n > Get(l.matchIndex, peer)
    ensures Takes(cfg, l, peer, n, r, l1) && Still(l, l1)
    ensures l1.nextIndex == l.nextIndex[peer := n + 1] && l1.matchIndex == l.matchIndex[peer := n]
  {
    l1 := SuccessMade(cfg, l, peer, r.seqNo, n);
  }

  lemma LeaderTakesRejection(cfg: Config, l: State, peer: Id, n: nat, r: AppendReply) returns (l1: State)
    requires !r.success
    ensures Takes(cfg, l, peer, n, r, l1) && Still(l, l1)
    ensures l1.nextIndex == l.nextIndex[peer := Backoff(l, peer, r)] && l1.matchIndex == l.matchIndex
  {
    RejectionStill(cfg, l, peer, r);
    l1 := HandleRejection(cfg, l, peer, r);
  }

  lemma RoundRejects(cfg: Config, l: State, f: State, peer: Id) returns (l1: State, f1: State)
    requires Exchanging(l, f, peer) && l.nextIndex[peer] - 1 > Agreement(l.entries, f.entries)
    ensures Round(cfg, l, f, peer, l1, f1) && Exchanging(l1, f1, peer)
    ensures f1.entries == f.entries && l1.entries == l.entries && l1.matchIndex == l.matchIndex
    ensures Agreement(l.entries, f.entries) < l1.nextIndex[peer] < l.nextIndex[peer]
  {
    var q := AppendFor(cfg, l, l.nextIndex[peer]);
    AcceptsIff(cfg, l, f, l.nextIndex[peer]);
    RejectionLowers(cfg, l, f, peer);
    f1 := FollowerRejects(f, q);
    var r := Conflict(f, q).value;
    var n := q.prevIndex + |q.entries|;
    l1 := LeaderTakesRejection(cfg, l, peer, n, r);
    assert RoundWith(cfg, l, f, peer, l1, f1, q, n, r);
  }

  /** The pair after the follower has taken over the leader's first n entries and said so. */
  lemma AcceptedExchange(l: State, f: State, l1: State, f1: State, peer: Id, n: nat)
    requires Exchanging(l, f, peer) && Get(l.matchIndex, peer) < n <= |l.entries| && Still(l, l1)
    requires l1.nextIndex == l.nextIndex[peer := n + 1] && l1.matchIndex == l.matchIndex[peer := n]
    requires f1.role.Follower? && f1.term == f.term && !f1.halted && f1.snap == f.snap
    requires f1.entries == Merge(f.entries, l.entries[..n]) && (f1.commitIndex == f.commitIndex || f1.commitIndex <= n)
    ensures Exchanging(l1, f1, peer) && n <= Agreement(l.entries, f1.entries)
    ensures Merge(f1.entries, l.entries) == Merge(f.entries, l.entries)
  {
    MergeFacts(l.entries, f.entries, n);
    MergeNumbered(l.entries, f.entries, n);
  }

  lemma RoundAccepts(cfg: Config, l: State, f: State, peer: Id) returns (l1: State, f1: State)
    requires Exchanging(l, f, peer) && l.nextIndex[peer] - 1 <= Agreement(l.entries, f.entries)
    requires Get(l.matchIndex, peer) < |l.entries|
    ensures Round(cfg, l, f, peer, l1, f1) && Exchanging(l1, f1, peer) && l1.entries == l.entries
    ensures Get(l1.matchIndex, peer) > Get(l.matchIndex, peer) && l1.nextIndex[peer] - 1 <= Agreement(l.entries, f1.entries)
    ensures Merge(f1.entries, l.entries) == Merge(f.entries, l.entries)
  {
    var next := l.nextIndex[peer];
    var q := AppendFor(cfg, l, next);
    var n := BatchReaches(cfg, l, next);
    AcceptsIff(cfg, l, f, next);
    var r;
    f1, r := FollowerAccepts(f, q, l.entries, n);
    l1 := LeaderTakesSuccess(cfg, l, peer, n, r);
    AcceptedExchange(l, f, l1, f1, peer, n);
    assert RoundWith(cfg, l, f, peer, l1, f1, q, n, r);
  }

  lemma BatchReaches(cfg: Config, l: State, next: nat) returns (n: nat)
    requires l.snap == EMPTY_SNAPSHOT && 0 < next <= |l.entries| + 1
    ensures var q := AppendFor(cfg, l, next);
            q.prevIndex + |q.entries| == n && next - 1 <= n <= |l.entries| && (next <= |l.entries| ==> next <= n)
            && q.entries == l.entries[next - 1..n]
  {
    n := if next - 1 < |l.entries| then BatchEnd(l.entries, next - 1, MAX_APPEND_BYTES) else next - 1;
  }

  /** How many rounds are left at most: rejections down to the point of agreement, then successes. */
  ghost function Distance(l: State, f: State, peer: Id): nat
    requires Exchanging(l, f, peer)
  {
    var a, next := Agreement(l.entries, f.entries), l.nextIndex[peer];
    (if next - 1 <= a then 0 else next - 1 - a) + |l.entries| - Get(l.matchIndex, peer)
  }

  /** Every round brings the end nearer and leaves what will have been merged as it was. */
  lemma NextRound(cfg: Config, l: State, f: State, peer: Id) returns (l1: State, f1: State)
    requires Exchanging(l, f, peer) && Get(l.matchIndex, peer) < |l.entries|
    ensures Round(cfg, l, f, peer, l1, f1) && Exchanging(l1, f1, peer) && l1.entries == l.entries
    ensures Distance(l1, f1, peer) < Distance(l, f, peer)
    ensures Merge(f1.entries, l.entries) == Merge(f.entries, l.entries)
  {
    if l.nextIndex[peer] - 1 <= Agreement(l.entries, f.entries) {
      l1, f1 := RoundAccepts(cfg, l, f, peer);
    } else {
      l1, f1 := RoundRejects(cfg, l, f, peer);
    }
  }

  /** The exchange ends, within Distance rounds, with the leader's whole log merged into the follower's
      and known to be there. */
  lemma {:induction false} RepairConverges(cfg: Config, l: State, f: State, peer: Id) returns (ps: seq<Pair>)
    requires Exchanging(l, f, peer)
    ensures Rounds(cfg, ps, peer) && |ps| <= Distance(l, f, peer) + 1 && ps[0] == Pair(l, f)
    ensures var p := ps[|ps| - 1];
            && Get(p.l.matchIndex, peer) == |l.entries| && p.l.entries == l.entries && !p.f.halted
            && p.f.entries == Merge(f.entries, l.entries) && l.entries <= p.f.entries
    decreases Distance(l, f, peer)
  {
    if Get(l.matchIndex, peer) == |l.entries| {
      ps := [Pair(l, f)];
      WithinAgreement(l.entries, f.entries, |l.entries|);
    } else {
      var l1, f1;
      l1, f1 := NextRound(cfg, l, f, peer);
      var qs := RepairConverges(cfg, l1, f1, peer);
      RoundsCons(cfg, Pair(l, f), qs, peer);
      ps := [Pair(l, f)] + qs;
    }
  }
}
