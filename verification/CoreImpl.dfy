/** The core's loops as the source runs them: over the log, the peers and the pending reads, on fields
    updated in place. Each is proved to compute what the recursive function or the comprehension of the
    same name in RaftCore says; the handlers that only call them in order are the functions themselves. */
module CoreImpl {
  import Spec = RaftCore
  import opened RaftLog
  import opened RaftCore

  /** The peers, in the order a map range hands them out. */
  predicate PeersOf(cfg: Config)
  {
    && cfg.id in cfg.members
    && (forall p :: p in cfg.peers ==> p in cfg.members && p != cfg.id)
    && (forall p :: p in cfg.members && p != cfg.id ==> p in cfg.peers)
    && (forall i, j :: 0 <= i < j < |cfg.peers| ==> cfg.peers[i] != cfg.peers[j])
  }

  /** How many of the first k peers, plus the node itself, store index n. */
  function CountHolders(cfg: Config, s: State, n: nat, k: nat): nat
    requires k <= |cfg.peers|
  {
    if k == 0 then 1
    else CountHolders(cfg, s, n, k - 1) + if Get(s.matchIndex, cfg.peers[k - 1]) >= n then 1 else 0
  }

  function HoldersAmong(cfg: Config, s: State, n: nat, k: nat): set<Id>
    requires k <= |cfg.peers|
  {
    if k == 0 then {cfg.id}
    else HoldersAmong(cfg, s, n, k - 1) + if Get(s.matchIndex, cfg.peers[k - 1]) >= n then {cfg.peers[k - 1]} else {}
  }

  lemma {:induction false} AmongIs(cfg: Config, s: State, n: nat, k: nat, p: Id)
    requires k <= |cfg.peers|
    ensures p in HoldersAmong(cfg, s, n, k) <==> p == cfg.id || exists i :: 0 <= i < k && cfg.peers[i] == p && Get(s.matchIndex, p) >= n
  {
    if k > 0 { AmongIs(cfg, s, n, k - 1, p); }
  }

  lemma NotYet(cfg: Config, s: State, n: nat, k: nat)
    requires PeersOf(cfg) && 0 < k <= |cfg.peers|
    ensures cfg.peers[k - 1] !in HoldersAmong(cfg, s, n, k - 1)
  {
    assert cfg.peers[k - 1] in cfg.peers;
    AmongIs(cfg, s, n, k - 1, cfg.peers[k - 1]);
  }

  lemma {:induction false} CountIsSize(cfg: Config, s: State, n: nat, k: nat)
    requires PeersOf(cfg) && k <= |cfg.peers|
    ensures CountHolders(cfg, s, n, k) == |HoldersAmong(cfg, s, n, k)|
  {
    if k > 0 {
      CountIsSize(cfg, s, n, k - 1);
      NotYet(cfg, s, n, k);
      OneMore(HoldersAmong(cfg, s, n, k - 1), cfg.peers[k - 1]);
    }
  }

  lemma OneMore(r: set<Id>, p: Id)
    requires p !in r
    ensures |r + {p}| == |r| + 1 && r + {} == r
  {
  }

  /** Counting peer by peer comes to the size of the set of holders. */
  lemma CountIsHolders(cfg: Config, s: State, n: nat)
    requires PeersOf(cfg)
    ensures CountHolders(cfg, s, n, |cfg.peers|) == |Holders(cfg, s, n)|
  {
    CountIsSize(cfg, s, n, |cfg.peers|);
    forall p: Id
      ensures p in HoldersAmong(cfg, s, n, |cfg.peers|) <==> p in Holders(cfg, s, n)
    {
      AmongIs(cfg, s, n, |cfg.peers|, p);
    }
    assert HoldersAmong(cfg, s, n, |cfg.peers|) == Holders(cfg, s, n);
  }

  lemma BroadcastNext(cfg: Config, s: State, i: nat)
    requires i < |cfg.peers|
    ensures BroadcastTo(cfg, s, cfg.peers[..i + 1]) == SendAppend(cfg, BroadcastTo(cfg, s, cfg.peers[..i]), cfg.peers[i])
  {
    assert cfg.peers[..i + 1][..i] == cfg.peers[..i];
  }

  class Core {
    const cfg: Config

    var role: Role
    var term: nat
    var votedFor: Id
    var leaderId: Id
    var snap: Snapshot
    var entries: Log
    var commitIndex: nat
    var lastDelivered: nat
    var votes: set<Id>
    var preVotes: Option<set<Id>>
    var nextIndex: map<Id, nat>
    var matchIndex: map<Id, nat>
    var transferTarget: Id
    var appendSeq: nat
    var readCounter: nat
    var pendingReads: seq<PendingRead>
    var outbox: seq<Message>
    var committed: Log
    var readOutcomes: seq<ReadOutcome>
    var restore: Option<Log>
    var halted: bool

    ghost function View(): State
      reads this
    {
      State(role, term, votedFor, leaderId, snap, entries, commitIndex, lastDelivered, votes, preVotes,
            nextIndex, matchIndex, transferTarget, appendSeq, readCounter, pendingReads, outbox, committed,
            readOutcomes, restore, halted)
    }

    /** A core built from what is on disk. */
    constructor (cfg: Config, term: nat, votedFor: Id, snap: Snapshot, entries: Log)
      ensures View() == NewCore(term, votedFor, snap, entries) && this.cfg == cfg
    {
      this.cfg := cfg;
      role, this.term, this.votedFor, leaderId := Follower, term, votedFor, NO_NODE;
      this.snap, this.entries, commitIndex, lastDelivered := snap, entries, snap.lastIndex, snap.lastIndex;
      votes, preVotes, nextIndex, matchIndex, transferTarget := {}, None, map[], map[], NO_NODE;
      appendSeq, readCounter, pendingReads := 0, 0, [];
      outbox, committed, readOutcomes, restore, halted := [], [], [], None, false;
    }

    // ---- reading the log ----

    function LastLogIndex(): (r: nat)
      reads this
      ensures r == LastIndex(View())
    {
      if |entries| == 0 then snap.lastIndex else entries[|entries| - 1].index
    }

    function TermAt(index: nat): (r: nat)
      reads this
      ensures r == Spec.TermAt(View(), index)
    {
      if index == snap.lastIndex then snap.lastTerm
      else if index == 0 || |entries| == 0 then 0
      else
        var base := entries[0].index;
        if index < base || index > LastLogIndex() || index - base >= |entries| then 0 else entries[index - base].term
    }

    method FirstIndexOfTerm(t: nat, from: nat) returns (i: nat)
      ensures i == Spec.FirstIndexOfTerm(View(), t, from)
    {
      i := from;
      while i > 1 && TermAt(i - 1) == t
        invariant Spec.FirstIndexOfTerm(View(), t, i) == Spec.FirstIndexOfTerm(View(), t, from)
      {
        i := i - 1;
      }
    }

    method LastIndexOfTerm(t: nat) returns (r: nat)
      ensures r == Spec.LastIndexOfTerm(View(), t, LastIndex(View()))
    {
      var i := LastLogIndex();
      while i > 0
        invariant Spec.LastIndexOfTerm(View(), t, i) == Spec.LastIndexOfTerm(View(), t, LastIndex(View()))
      {
        var u := TermAt(i);
        if u == t { return i; }
        if u < t || u == 0 { return 0; }
        i := i - 1;
      }
      r := 0;
    }

    // ---- reads ----

    method ConfirmReads() returns (none: bool)
      modifies `readOutcomes, `pendingReads
      ensures View() == Spec.ConfirmReads(cfg, old(View())) && none == (pendingReads == [])
    {
      var q := Majority(cfg.members);
      var remaining, i := [], 0;
      while i < |pendingReads|
        invariant 0 <= i <= |pendingReads| && pendingReads == old(pendingReads)
        invariant remaining == Unconfirmed(pendingReads[..i], q)
        invariant readOutcomes == old(readOutcomes) + Confirmed(pendingReads[..i], q)
      {
        var r := pendingReads[i];
        assert pendingReads[..i + 1][..i] == pendingReads[..i];
        if |r.acks| >= q {
          readOutcomes := readOutcomes + [ReadOutcome(r.id, r.index, true)];
        } else {
          remaining := remaining + [r];
        }
        i := i + 1;
      }
      assert pendingReads[..i] == pendingReads;
      pendingReads := remaining;
      none := |pendingReads| == 0;
    }

    method NoteFreshAck(from: Id, seqNo: nat)
      modifies `readOutcomes, `pendingReads
      ensures View() == Spec.NoteFreshAck(cfg, old(View()), from, seqNo)
    {
      ghost var before := pendingReads;
      var touched, i := false, 0;
      while i < |pendingReads|
        invariant 0 <= i <= |pendingReads| == |before| && readOutcomes == old(readOutcomes)
        invariant touched <==> exists j :: 0 <= j < i && seqNo >= before[j].minSeq
        invariant forall j :: 0 <= j < i ==> pendingReads[j] == Acked(before, from, seqNo)[j]
        invariant forall j :: i <= j < |before| ==> pendingReads[j] == before[j]
      {
        var r := pendingReads[i];
        if seqNo >= r.minSeq {
          pendingReads := pendingReads[i := r.(acks := r.acks + {from})];
          touched := true;
        }
        i := i + 1;
      }
      assert pendingReads == Acked(before, from, seqNo);
      if touched {
        var _ := ConfirmReads();
      } else {
        assert Acked(before, from, seqNo) == before;
      }
    }

    // ---- the leader's side of replication ----

    method SendAppend(peer: Id)
      modifies `appendSeq, `outbox
      ensures View() == Spec.SendAppend(cfg, old(View()), peer)
    {
      var next := Get(nextIndex, peer);
      if next == 0 { next := 1; }
      if next <= snap.lastIndex {
        outbox := outbox + [AskInstall(peer, SnapRequest(term, cfg.id, snap))];
        return;
      }
      var prevTerm := TermAt(next - 1);
      appendSeq := appendSeq + 1;
      var batch := [];
      var k := next - snap.lastIndex - 1;
      if k < |entries| {
        batch := GatherBatch(k);
      }
      outbox := outbox + [AskAppend(peer, AppendRequest(term, cfg.id, next - 1, prevTerm, batch, commitIndex, appendSeq))];
    }

    /** The entries from position k on, until their payload fills one message. */
    method GatherBatch(k: nat) returns (batch: Log)
      requires k < |entries|
      ensures batch == entries[k..BatchEnd(entries, k, MAX_APPEND_BYTES)]
    {
      var i, payload := k, 0;
      batch := [];
      while i < |entries|
        invariant k <= i <= |entries| && batch == entries[k..i]
        invariant BatchEnd(entries, i, MAX_APPEND_BYTES - payload) == BatchEnd(entries, k, MAX_APPEND_BYTES)
      {
        batch := batch + [entries[i]];
        payload := payload + |entries[i].command|;
        i := i + 1;
        if payload >= MAX_APPEND_BYTES { return; }
      }
    }

    method BroadcastAppends()
      modifies `appendSeq, `outbox
      ensures View() == Spec.BroadcastAppends(cfg, old(View()))
    {
      var i := 0;
      while i < |cfg.peers|
        invariant 0 <= i <= |cfg.peers|
        invariant View() == BroadcastTo(cfg, old(View()), cfg.peers[..i])
      {
        SendAppend(cfg.peers[i]);
        BroadcastNext(cfg, old(View()), i);
        i := i + 1;
      }
      assert cfg.peers[..i] == cfg.peers;
    }

    method DeliverCommitted()
      modifies `committed, `lastDelivered, `halted
      ensures View() == Spec.DeliverCommitted(old(View()))
    {
      if |entries| == 0 || commitIndex <= lastDelivered { return; }
      var base := entries[0].index;
      if lastDelivered + 1 < base || commitIndex - base >= |entries| {
        halted := true;  // the index is out of range
        return;
      }
      Queue(lastDelivered + 1 - base, commitIndex + 1 - base);
      lastDelivered := commitIndex;
    }

    method Queue(lo: nat, hi: nat)
      requires lo <= hi <= |entries|
      modifies `committed
      ensures committed == old(committed) + entries[lo..hi]
    {
      for i := lo to hi
        invariant committed == old(committed) + entries[lo..i]
      {
        committed := committed + [entries[i]];
        assert entries[lo..i] + [entries[i]] == entries[lo..i + 1];
      }
    }

    method MaybeAdvanceCommit()
      requires PeersOf(cfg)
      modifies `commitIndex, `committed, `lastDelivered, `halted
      ensures View() == Spec.MaybeAdvanceCommit(cfg, old(View()))
    {
      var n := FindCommit();
      if n != commitIndex {
        commitIndex := n;
        DeliverCommitted();
      }
    }

    /** Walk down from the end of the log to an index that may be committed. */
    method FindCommit() returns (n: nat)
      requires PeersOf(cfg)
      ensures n == ScanCommit(cfg, View(), LastIndex(View()))
    {
      n := LastLogIndex();
      while n > commitIndex && TermAt(n) == term
        invariant ScanCommit(cfg, View(), n) == ScanCommit(cfg, View(), LastIndex(View()))
      {
        var count := CountMatching(n);
        CountIsHolders(cfg, View(), n);
        if count >= Majority(cfg.members) { return; }
        n := n - 1;
      }
      n := commitIndex;
    }

    method CountMatching(n: nat) returns (count: nat)
      ensures count == CountHolders(cfg, View(), n, |cfg.peers|)
    {
      count := 1;
      for i := 0 to |cfg.peers|
        invariant count == CountHolders(cfg, View(), n, i)
      {
        if Get(matchIndex, cfg.peers[i]) >= n { count := count + 1; }
      }
    }

    // ---- the follower's side of replication ----

    method FindNew(es: Log) returns (i: nat)
      ensures i == FirstNew(View(), es, 0)
    {
      i := 0;
      while i < |es|
        invariant 0 <= i <= |es| && FirstNew(View(), es, 0) == FirstNew(View(), es, i)
      {
        if es[i].index > LastLogIndex() || TermAt(es[i].index) != es[i].term { return; }
        i := i + 1;
      }
    }
  }
}
