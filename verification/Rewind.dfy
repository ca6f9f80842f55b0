/** Two things that do happen to a cluster of three, shown by runs.

    A rewinding install. Node 1 leads term 1, and entries 2 and 4 fill a message each. Node 3 snapshots
    at index 3. Node 2 applies four entries, and then a late copy of its first batch, which carries
    commit index 5 but ends at index 2, pulls its commit index back to 2. Node 3 wins term 2 and asks
    node 2 to continue at index 5, which is refused; three such refusals bring nextIndex down to 3, so
    node 3 sends its snapshot. It is above node 2's commit index: it is installed, the state machine
    goes back to index 3 and the delivery cursor stays at 4. Each of the three refusals may be the
    answer to a heartbeat of its own; here one is received three times.

    A halting append. Right after node 3 has snapshotted, a late copy of the very first append reaches
    it, and it stops. */
module Rewind {
  import opened RaftLog
  import opened RaftCore
  import opened Cluster
  import opened ClusterSim
  import opened Outcomes
  import opened Delivery

  const M: set<Id> := {1, 2, 3}

  function Peers(v: Id): seq<Id>
  {
    if v == 1 then [2, 3] else if v == 2 then [1, 3] else [1, 2]
  }

  function Cfg(v: Id): Config
  {
    Config(v, M, Peers(v))
  }

  // ---- the log of term 1 ----

  /** The five entries of term 1: the no-op of its leader's election and four commands, of which the
      second and the fourth entry fill a message each. */
  predicate Shaped(x: Log)
  {
    && |x| == 5 && Numbered(0, x) && (forall i :: 0 <= i < 5 ==> x[i].term == 1)
    && x[0].kind == KIND_NOOP && (forall i :: 1 <= i < 5 ==> x[i].kind == KIND_NORMAL)
    && x[0].command == x[2].command == x[4].command == []
    && |x[1].command| >= MAX_APPEND_BYTES && |x[3].command| >= MAX_APPEND_BYTES
  }

  /** Where a batch from position k of the first n entries ends. */
  function End(n: nat, k: nat): nat
  {
    if k < 2 <= n then 2 else if k < 4 <= n then 4 else n
  }

  lemma BatchIs(x: Log, n: nat, k: nat)
    requires Shaped(x) && k < n <= 5
    ensures BatchEnd(x[..n], k, MAX_APPEND_BYTES) == End(n, k)
  {
    var es := x[..n];
    assert forall i :: 0 <= i < n ==> es[i] == x[i];
    if k + 1 < n && |es[k].command| == 0 {
      assert BatchEnd(es, k, MAX_APPEND_BYTES) == BatchEnd(es, k + 1, MAX_APPEND_BYTES);
    }
  }

  /** What node 1 sends a peer whose log it takes to end at prev. */
  function Ask(x: Log, prev: nat, n: nat, commit: nat, seqNo: nat): AppendRequest
    requires |x| == 5 && prev <= n <= 5
  {
    AppendRequest(1, 1, prev, if prev == 0 then 0 else 1, x[prev..n], commit, seqNo)
  }

  // ---- what matters about a core ----

  datatype Summary = Summary(
    role: Role, term: nat, snap: Snapshot, entries: Log, commit: nat, delivered: nat,
    next: map<Id, nat>, matched: map<Id, nat>, seqNo: nat, votes: set<Id>)

  function View(c: State): Summary
  {
    Summary(c.role, c.term, c.snap, c.entries, c.commitIndex, c.lastDelivered, c.nextIndex, c.matchIndex,
            c.appendSeq, c.votes)
  }

  /** No reads, no transfer, no pre-vote: nothing but replication goes on. */
  predicate Plain(c: State)
  {
    !c.halted && c.pendingReads == [] && c.transferTarget == NO_NODE && c.preVotes.None?
  }

  predicate Drained(c: State)
  {
    c.outbox == [] && c.committed == [] && c.readOutcomes == [] && c.restore.None?
  }

  predicate Is(n: Node, k: Summary)
  {
    n.up && Plain(n.core) && Drained(n.core) && View(n.core) == k
  }

  predicate Stage(s: System, k1: Summary, k2: Summary, k3: Summary, ms: set<Message>)
  {
    && s.members == M && s.nodes.Keys == M && ms <= s.net
    && Is(s.nodes[1], k1) && Is(s.nodes[2], k2) && Is(s.nodes[3], k3)
  }

  /** No event of the run brings a snapshot. */
  predicate NoInstalls(run: seq<Event>)
  {
    forall i :: 0 <= i < |run| ==> !IsInstall(run[i].action)
  }

  predicate Ends(run: seq<Event>, s: System)
  {
    Exec(M, run) == s
  }

  /** The run brings no snapshot and ends in this stage. */
  ghost predicate Reached(run: seq<Event>, k1: Summary, k2: Summary, k3: Summary, ms: set<Message>)
  {
    NoInstalls(run) && forall s {:trigger Ends(run, s)} :: Ends(run, s) ==> Stage(s, k1, k2, k3, ms)
  }

  lemma Open(run: seq<Event>, k1: Summary, k2: Summary, k3: Summary, ms: set<Message>)
    requires Reached(run, k1, k2, k3, ms)
    ensures Stage(Exec(M, run), k1, k2, k3, ms) && NoInstalls(run)
  {
    assert Ends(run, Exec(M, run));
  }

  lemma Close(run: seq<Event>, k1: Summary, k2: Summary, k3: Summary, ms: set<Message>)
    requires Stage(Exec(M, run), k1, k2, k3, ms) && NoInstalls(run)
    ensures Reached(run, k1, k2, k3, ms)
  {
  }

  lemma ExecNext(run: seq<Event>, ev: Event)
    ensures Exec(M, run + [ev]) == Step(Exec(M, run), ev)
  {
    assert (run + [ev])[..|run|] == run;
  }

  lemma PeersFit(v: Id)
    requires v in M
    ensures ValidPeers(M, v, Peers(v))
  {
  }

  lemma StepIs(s: System, ev: Event, n: Node, reply: seq<Message>)
    requires Enabled(s, ev) && !ev.action.Restart? && !n.core.halted
    requires Dispatch(Config(ev.node, s.members, ev.peers), s.nodes[ev.node], ev.action) == (n, reply)
    ensures Step(s, ev) == Finish(s, ev.node, n, reply)
  {
  }

  lemma FinishStage(s: System, v: Id, n: Node, reply: seq<Message>, k1: Summary, k2: Summary, k3: Summary, ms: set<Message>)
    requires Stage(s, k1, k2, k3, ms) && v in M && n.up && Plain(n.core)
    ensures Stage(Finish(s, v, n, reply), if v == 1 then View(n.core) else k1, if v == 2 then View(n.core) else k2,
                  if v == 3 then View(n.core) else k3, ms + AsSet(reply) + AsSet(n.core.outbox))
  {
    StaysUp(v, n);
  }

  /** One event on node v, which handles it to n and answers. */
  lemma Take(run: seq<Event>, v: Id, a: Action, k1: Summary, k2: Summary, k3: Summary, ms: set<Message>,
             n: Node, reply: seq<Message>) returns (next: seq<Event>)
    requires Reached(run, k1, k2, k3, ms) && v in M && !a.Restart? && !IsInstall(a)
    requires a.Receive? ==> a.msg in ms && a.msg.to == v
    requires v in Exec(M, run).nodes && Dispatch(Cfg(v), Exec(M, run).nodes[v], a) == (n, reply) && Plain(n.core) && n.up
    ensures next == run + [Event(v, Peers(v), a)]
    ensures Reached(next, if v == 1 then View(n.core) else k1, if v == 2 then View(n.core) else k2,
                  if v == 3 then View(n.core) else k3, ms + AsSet(reply) + AsSet(n.core.outbox))
  {
    var ev := Event(v, Peers(v), a);
    next := run + [ev];
    Open(run, k1, k2, k3, ms);
    ExecNext(run, ev);
    PeersFit(v);
    StepIs(Exec(M, run), ev, n, reply);
    FinishStage(Exec(M, run), v, n, reply, k1, k2, k3, ms);
    Close(next, if v == 1 then View(n.core) else k1, if v == 2 then View(n.core) else k2,
          if v == 3 then View(n.core) else k3, ms + AsSet(reply) + AsSet(n.core.outbox));
  }

  // ---- node 1 leads term 1 ----

  /** Node 1 with the first n entries, the first commit of them committed and applied. */
  function Lead(x: Log, n: nat, commit: nat, next: map<Id, nat>, matched: map<Id, nat>, seqNo: nat): Summary
    requires |x| == 5 && n <= 5
  {
    Summary(Leader, 1, EMPTY_SNAPSHOT, x[..n], commit, commit, next, matched, seqNo, {1, 3})
  }

  lemma TermIs(x: Log, c: State, n: nat, i: nat)
    requires Shaped(x) && n <= 5 && c.snap == EMPTY_SNAPSHOT && c.entries == x[..n]
    ensures LastIndex(c) == n && TermAt(c, i) == if 0 < i <= n then 1 else 0
  {
  }

  lemma SliceOf(x: Log, n: nat, p: nat, q: nat)
    requires p <= q <= n <= |x|
    ensures x[..n][p..q] == x[p..q]
  {
  }

  lemma AskIs(x: Log, c: State, n: nat, next: nat)
    requires Shaped(x) && n <= 5 && c.term == 1 && c.snap == EMPTY_SNAPSHOT && c.entries == x[..n] && 0 < next <= n + 1
    ensures next - 1 <= End(n, next - 1) <= n
    ensures AppendFor(Cfg(1), c, next) == Ask(x, next - 1, End(n, next - 1), c.commitIndex, c.appendSeq + 1)
  {
    var p := next - 1;
    TermIs(x, c, n, p);
    if p < n {
      BatchIs(x, n, p);
      SliceOf(x, n, p, End(n, p));
    } else {
      assert x[p..End(n, p)] == [];
    }
  }

  lemma SendIs(x: Log, c: State, n: nat, commit: nat, next: map<Id, nat>, matched: map<Id, nat>, seqNo: nat, peer: Id)
    requires Shaped(x) && n <= 5 && View(c) == Lead(x, n, commit, next, matched, seqNo) && peer in next && 0 < next[peer] <= n + 1
    ensures var p := next[peer] - 1;
            p <= End(n, p) <= n &&
            SendAppend(Cfg(1), c, peer)
            == c.(appendSeq := seqNo + 1, outbox := c.outbox + [AskAppend(peer, Ask(x, p, End(n, p), commit, seqNo + 1))])
  {
    AskIs(x, c, n, next[peer]);
  }

  lemma BroadcastIs(x: Log, c: State, n: nat, commit: nat, next: map<Id, nat>, matched: map<Id, nat>, seqNo: nat)
    requires Shaped(x) && n <= 5 && View(c) == Lead(x, n, commit, next, matched, seqNo)
    requires 2 in next && 3 in next && 0 < next[2] <= n + 1 && 0 < next[3] <= n + 1
    ensures var p, q := next[2] - 1, next[3] - 1;
            p <= End(n, p) <= n && q <= End(n, q) <= n &&
            BroadcastAppends(Cfg(1), c)
            == c.(appendSeq := seqNo + 2,
                  outbox := c.outbox + [AskAppend(2, Ask(x, p, End(n, p), commit, seqNo + 1)),
                                        AskAppend(3, Ask(x, q, End(n, q), commit, seqNo + 2))])
  {
    var d := SendAppend(Cfg(1), c, 2);
    SendIs(x, c, n, commit, next, matched, seqNo, 2);
    SendIs(x, d, n, commit, next, matched, seqNo + 1, 3);
    assert [2, 3][..1] == [2] && [2][..0] == [];
    assert BroadcastTo(Cfg(1), c, [2]) == SendAppend(Cfg(1), BroadcastTo(Cfg(1), c, []), 2);
  }

  lemma HoldersAre(c: State, n: nat)
    ensures |Holders(Cfg(1), c, n)| >= Majority(M) <==> Get(c.matchIndex, 2) >= n || Get(c.matchIndex, 3) >= n
  {
    var h := Holders(Cfg(1), c, n);
    assert |M| == 3;
    if Get(c.matchIndex, 2) >= n {
      SubsetSize({1, 2}, h);
    } else if Get(c.matchIndex, 3) >= n {
      SubsetSize({1, 3}, h);
    } else {
      SubsetSize(h, {1});
    }
  }

  /** With m the highest index that node 2 or 3 is known to hold. */
  lemma {:induction false} ScanIs(x: Log, c: State, n: nat, m: nat, i: nat)
    requires Shaped(x) && n <= 5 && c.snap == EMPTY_SNAPSHOT && c.entries == x[..n] && c.term == 1 && i <= n
    requires Get(c.matchIndex, 2) <= m && Get(c.matchIndex, 3) <= m && c.commitIndex <= m <= i
    requires m == c.commitIndex || Get(c.matchIndex, 2) == m || Get(c.matchIndex, 3) == m
    ensures ScanCommit(Cfg(1), c, i) == m
  {
    TermIs(x, c, n, i);
    if i > c.commitIndex {
      HoldersAre(c, i);
      if i > m {
        ScanIs(x, c, n, m, i - 1);
      }
    }
  }

  lemma Piece(x: Log, b: nat, n: nat, l: nat, m: nat)
    requires b <= l <= m <= n <= |x|
    ensures x[b..n][l - b..m - b] == x[l..m]
  {
    var y, z := x[b..n][l - b..m - b], x[l..m];
    assert |y| == |z| && forall t :: 0 <= t < |y| ==> y[t] == z[t];
  }

  /** The core whose log is the first n entries delivers up to its commit index. */
  lemma DeliverIs(x: Log, c: State, n: nat)
    requires Shaped(x) && c.snap.lastIndex <= n <= 5 && c.entries == x[c.snap.lastIndex..n]
    requires c.snap.lastIndex <= c.lastDelivered < c.commitIndex <= n
    ensures DeliverCommitted(c) ==
            c.(committed := c.committed + x[c.lastDelivered..c.commitIndex], lastDelivered := c.commitIndex)
  {
    var b := c.snap.lastIndex;
    FirstOf(x, b, n);
    Piece(x, b, n, c.lastDelivered, c.commitIndex);
    DeliverOf(c, b, x[c.lastDelivered..c.commitIndex]);
  }

  lemma FirstOf(x: Log, b: nat, n: nat)
    requires Shaped(x) && b < n <= 5
    ensures x[b..n][0].index == b + 1
  {
    assert x[b..n][0] == x[b];
  }

  lemma DeliverOf(c: State, b: nat, piece: Log)
    requires |c.entries| > 0 && c.entries[0].index == b + 1 && b <= c.lastDelivered < c.commitIndex <= b + |c.entries|
    requires c.entries[c.lastDelivered - b..c.commitIndex - b] == piece
    ensures DeliverCommitted(c) == c.(committed := c.committed + piece, lastDelivered := c.commitIndex)
  {
  }

  lemma AdvanceIs(x: Log, c: State, n: nat, commit: nat, next: map<Id, nat>, matched: map<Id, nat>, seqNo: nat, m: nat)
    requires Shaped(x) && n <= 5 && View(c) == Lead(x, n, commit, next, matched, seqNo)
    requires Get(matched, 2) <= m && Get(matched, 3) <= m && commit <= m <= n
    requires m == commit || Get(matched, 2) == m || Get(matched, 3) == m
    ensures MaybeAdvanceCommit(Cfg(1), c)
         == c.(commitIndex := m, lastDelivered := m, committed := c.committed + x[commit..m])
  {
    TermIs(x, c, n, n);
    ScanIs(x, c, n, m, n);
    if commit < m {
      assert x[0..n] == x[..n];
      DeliverIs(x, c.(commitIndex := m), n);
    }
  }

  lemma ProposeIs(x: Log, c: State, n: nat, commit: nat, next: map<Id, nat>, matched: map<Id, nat>, seqNo: nat)
    requires Shaped(x) && 0 < n < 5 && View(c) == Lead(x, n, commit, next, matched, seqNo) && Plain(c) && Drained(c) && commit <= n
    requires 2 in next && 3 in next && 0 < next[2] <= n + 1 && 0 < next[3] <= n + 1
    requires Get(matched, 2) <= commit && Get(matched, 3) <= commit
    ensures var p, q := next[2] - 1, next[3] - 1;
            var d := Propose(Cfg(1), c, x[n].command).0;
            && p <= End(n + 1, p) <= n + 1 && q <= End(n + 1, q) <= n + 1
            && View(d) == Lead(x, n + 1, commit, next, matched, seqNo + 2) && Plain(d)
            && d.outbox == [AskAppend(2, Ask(x, p, End(n + 1, p), commit, seqNo + 1)),
                            AskAppend(3, Ask(x, q, End(n + 1, q), commit, seqNo + 2))]
  {
    TermIs(x, c, n, n);
    var e := c.(entries := x[..n + 1]);
    assert x[..n] + [x[n]] == x[..n + 1];
    assert Entry(1, n + 1, KIND_NORMAL, x[n].command) == x[n];
    BroadcastIs(x, e, n + 1, commit, next, matched, seqNo);
    var b := BroadcastAppends(Cfg(1), e);
    AdvanceIs(x, b, n + 1, commit, next, matched, seqNo + 2, commit);
    assert Propose(Cfg(1), c, x[n].command).0 == MaybeAdvanceCommit(Cfg(1), b);
  }

  lemma Proposes(x: Log, run: seq<Event>, n: nat, commit: nat, next: map<Id, nat>, matched: map<Id, nat>, seqNo: nat,
                 k2: Summary, k3: Summary, ms: set<Message>) returns (r: seq<Event>)
    requires Shaped(x) && 0 < n < 5 && commit <= n && Reached(run, Lead(x, n, commit, next, matched, seqNo), k2, k3, ms)
    requires 2 in next && 3 in next && 0 < next[2] <= n + 1 && 0 < next[3] <= n + 1
    requires Get(matched, 2) <= commit && Get(matched, 3) <= commit
    ensures r == run + [Event(1, Peers(1), ClientPropose(0, x[n].command))]
    ensures var p, q := next[2] - 1, next[3] - 1;
            && p <= End(n + 1, p) <= n + 1 && q <= End(n + 1, q) <= n + 1
            && Reached(r, Lead(x, n + 1, commit, next, matched, seqNo + 2), k2, k3,
                     ms + {AskAppend(2, Ask(x, p, End(n + 1, p), commit, seqNo + 1)), AskAppend(3, Ask(x, q, End(n + 1, q), commit, seqNo + 2))})
  {
    Open(run, Lead(x, n, commit, next, matched, seqNo), k2, k3, ms);
    var s, a := Exec(M, run), ClientPropose(0, x[n].command);
    ProposeIs(x, s.nodes[1].core, n, commit, next, matched, seqNo);
    var m := Dispatch(Cfg(1), s.nodes[1], a).0;
    r := Take(run, 1, a, Lead(x, n, commit, next, matched, seqNo), k2, k3, ms, m, []);
    AsSetTwo(m.core.outbox);
  }

  lemma AsSetTwo(ms: seq<Message>)
    requires |ms| == 2
    ensures AsSet(ms) == {ms[0], ms[1]}
  {
    assert forall m :: m in ms <==> m == ms[0] || m == ms[1];
  }

  lemma AsSetOne(ms: seq<Message>)
    requires |ms| == 1
    ensures AsSet(ms) == {ms[0]}
  {
    assert ms == [ms[0]];
  }

  function Ok(q: AppendRequest): AppendReply
  {
    AppendReply(q.term, q.seqNo, true, 0, 0)
  }

  // ---- answers to node 1 ----

  lemma FollowUpIs(x: Log, g: State, n: nat, k: nat, next: map<Id, nat>, matched: map<Id, nat>, seqNo: nat, u: Id)
    requires Shaped(x) && n <= 5 && View(g) == Lead(x, n, k, next, matched, seqNo) && Plain(g)
    requires (u == 2 || u == 3) && u in next && 0 < next[u] <= n + 1
    ensures var m := next[u] - 1;
            m <= End(n, m) <= n &&
            FollowUp(Cfg(1), g, u) ==
            if m < n then g.(appendSeq := seqNo + 1, outbox := g.outbox + [AskAppend(u, Ask(x, m, End(n, m), k, seqNo + 1))]) else g
  {
    TermIs(x, g, n, n);
    SendIs(x, g, n, k, next, matched, seqNo, u);
  }

  lemma MatchIs(x: Log, c: State, n: nat, commit: nat, next: map<Id, nat>, matched: map<Id, nat>, seqNo: nat, u: Id, m: nat)
    requires Shaped(x) && n <= 5 && View(c) == Lead(x, n, commit, next, matched, seqNo) && Drained(c)
    requires (u == 2 || u == 3) && commit <= n && Get(matched, 2) <= commit && Get(matched, 3) <= commit
    requires Get(matched, u) < m <= n
    ensures var k := if commit < m then m else commit;
            Advance(Cfg(1), c, u, m) ==
            c.(matchIndex := matched[u := m], nextIndex := next[u := m + 1], commitIndex := k, lastDelivered := k, committed := x[commit..k])
  {
    var k := if commit < m then m else commit;
    var e := c.(matchIndex := matched[u := m], nextIndex := next[u := m + 1]);
    AdvanceIs(x, e, n, commit, next[u := m + 1], matched[u := m], seqNo, k);
    AdvanceOf(Cfg(1), c, u, m, e);
  }

  lemma AdvanceOf(cfg: Config, c: State, u: Id, m: nat, e: State)
    requires m > Get(c.matchIndex, u) && e == c.(matchIndex := c.matchIndex[u := m], nextIndex := c.nextIndex[u := m + 1])
    ensures Advance(cfg, c, u, m) == MaybeAdvanceCommit(cfg, e)
  {
  }

  lemma NothingPending(cfg: Config, c: State, u: Id, ack: nat, m: nat)
    requires c.pendingReads == []
    ensures HandleSuccess(cfg, c, u, ack, m) == FollowUp(cfg, Advance(cfg, c, u, m), u)
  {
    assert NoteFreshAck(cfg, c, u, ack) == c;
  }

  /** Node 1 learns that node u holds the first m entries. */
  lemma AckIs(x: Log, c: State, n: nat, commit: nat, next: map<Id, nat>, matched: map<Id, nat>, seqNo: nat, u: Id, m: nat, ack: nat)
    requires Shaped(x) && n <= 5 && View(c) == Lead(x, n, commit, next, matched, seqNo) && Plain(c) && Drained(c)
    requires (u == 2 || u == 3) && commit <= n && Get(matched, 2) <= commit && Get(matched, 3) <= commit
    requires Get(matched, u) < m <= n
    ensures var d, k := HandleSuccess(Cfg(1), c, u, ack, m), if commit < m then m else commit;
            && m <= End(n, m) <= n && Plain(d)
            && View(d) == Lead(x, n, k, next[u := m + 1], matched[u := m], if m < n then seqNo + 1 else seqNo)
            && d.outbox == if m < n then [AskAppend(u, Ask(x, m, End(n, m), k, seqNo + 1))] else []
  {
    var k := if commit < m then m else commit;
    NothingPending(Cfg(1), c, u, ack, m);
    MatchIs(x, c, n, commit, next, matched, seqNo, u, m);
    FollowUpIs(x, Advance(Cfg(1), c, u, m), n, k, next[u := m + 1], matched[u := m], seqNo, u);
  }

  lemma Acked(x: Log, run: seq<Event>, n: nat, commit: nat, next: map<Id, nat>, matched: map<Id, nat>, seqNo: nat,
              k2: Summary, k3: Summary, ms: set<Message>, u: Id, p: nat, m: nat, lc: nat, ack: nat) returns (r: seq<Event>)
    requires Shaped(x) && n <= 5 && commit <= n && Reached(run, Lead(x, n, commit, next, matched, seqNo), k2, k3, ms)
    requires (u == 2 || u == 3) && p <= m && Get(matched, 2) <= commit && Get(matched, 3) <= commit
    requires Get(matched, u) < m <= n && TellAppend(u, 1, Ask(x, p, m, lc, ack), Ok(Ask(x, p, m, lc, ack))) in ms
    ensures r == run + [Event(1, Peers(1), Receive(TellAppend(u, 1, Ask(x, p, m, lc, ack), Ok(Ask(x, p, m, lc, ack))), false))]
    ensures var k := if commit < m then m else commit;
            && m <= End(n, m) <= n
            && Reached(r, Lead(x, n, k, next[u := m + 1], matched[u := m], if m < n then seqNo + 1 else seqNo), k2, k3,
                       ms + if m < n then {AskAppend(u, Ask(x, m, End(n, m), k, seqNo + 1))} else {})
  {
    Open(run, Lead(x, n, commit, next, matched, seqNo), k2, k3, ms);
    var q := Ask(x, p, m, lc, ack);
    var s, a := Exec(M, run), Receive(TellAppend(u, 1, q, Ok(q)), false);
    AckIs(x, s.nodes[1].core, n, commit, next, matched, seqNo, u, m, ack);
    SuccessHandled(Cfg(1), s.nodes[1], u, q, m);
    var d := HandleSuccess(Cfg(1), s.nodes[1].core, u, ack, m);
    r := Take(run, 1, a, Lead(x, n, commit, next, matched, seqNo), k2, k3, ms, s.nodes[1].(core := d), []);
    if |d.outbox| == 1 { AsSetOne(d.outbox); }
  }

  lemma ReplyHandled(cfg: Config, n: Node, u: Id, q: AppendRequest, r: AppendReply)
    ensures Dispatch(cfg, n, Receive(TellAppend(u, cfg.id, q, r), false)) == (n.(core := HandleAppendReply(cfg, n.core, u, q, r)), [])
  {
  }

  lemma FreshSuccess(cfg: Config, c: State, u: Id, q: AppendRequest)
    requires c.role.Leader? && c.term == q.term
    ensures HandleAppendReply(cfg, c, u, q, Ok(q)) == HandleSuccess(cfg, c, u, q.seqNo, q.prevIndex + |q.entries|)
  {
  }

  lemma FreshRejection(cfg: Config, c: State, u: Id, q: AppendRequest, r: AppendReply)
    requires c.role.Leader? && r.term == c.term == q.term && !r.success
    ensures HandleAppendReply(cfg, c, u, q, r) == HandleRejection(cfg, c, u, r)
  {
  }

  lemma SuccessHandled(cfg: Config, n: Node, u: Id, q: AppendRequest, m: nat)
    requires n.core.role.Leader? && n.core.term == q.term && m == q.prevIndex + |q.entries|
    ensures Dispatch(cfg, n, Receive(TellAppend(u, cfg.id, q, Ok(q)), false))
         == (n.(core := HandleSuccess(cfg, n.core, u, q.seqNo, m)), [])
  {
    ReplyHandled(cfg, n, u, q, Ok(q));
    FreshSuccess(cfg, n.core, u, q);
  }

  lemma RejectionHandled(cfg: Config, n: Node, u: Id, q: AppendRequest, r: AppendReply)
    requires n.core.role.Leader? && r.term == n.core.term == q.term && !r.success
    ensures Dispatch(cfg, n, Receive(TellAppend(u, cfg.id, q, r), false)) == (n.(core := HandleRejection(cfg, n.core, u, r)), [])
  {
    ReplyHandled(cfg, n, u, q, r);
    FreshRejection(cfg, n.core, u, q, r);
  }

  lemma Beats(x: Log, run: seq<Event>, n: nat, commit: nat, next: map<Id, nat>, matched: map<Id, nat>, seqNo: nat,
              k2: Summary, k3: Summary, ms: set<Message>) returns (r: seq<Event>)
    requires Shaped(x) && n <= 5 && Reached(run, Lead(x, n, commit, next, matched, seqNo), k2, k3, ms)
    requires 2 in next && 3 in next && 0 < next[2] <= n + 1 && 0 < next[3] <= n + 1
    ensures r == run + [Event(1, Peers(1), Beat)]
    ensures var p := next[2] - 1;
            && p <= End(n, p) <= n
            && Reached(r, Lead(x, n, commit, next, matched, seqNo + 2), k2, k3,
                     ms + {AskAppend(2, Ask(x, p, End(n, p), commit, seqNo + 1))})
  {
    Open(run, Lead(x, n, commit, next, matched, seqNo), k2, k3, ms);
    var s := Exec(M, run);
    BroadcastIs(x, s.nodes[1].core, n, commit, next, matched, seqNo);
    var d := BroadcastAppends(Cfg(1), s.nodes[1].core);
    r := Take(run, 1, Beat, Lead(x, n, commit, next, matched, seqNo), k2, k3, ms, s.nodes[1].(core := d), []);
    AsSetTwo(d.outbox);
  }

  // ---- followers of term 1 ----

  /** A follower with the first n entries, those up to snap's index compacted away. */
  function Follow(x: Log, term: nat, snap: Snapshot, n: nat, commit: nat, delivered: nat): Summary
    requires |x| == 5 && snap.lastIndex <= n <= 5
  {
    Summary(Follower, term, snap, x[snap.lastIndex..n], commit, delivered, map[], map[], 0, {})
  }

  lemma RecognizeIs(c: State, k: Summary, term: nat, leader: Id)
    requires View(c) == k && k.role.Follower? && k.votes == {} && k.term <= term && Plain(c) && Drained(c)
    ensures var d := Recognize(c, term, leader); View(d) == k.(term := term) && Plain(d) && Drained(d)
  {
  }

  lemma SeesTerm(x: Log, c: State, snap: Snapshot, n: nat, i: nat)
    requires Shaped(x) && snap.lastIndex <= n <= 5 && c.snap == snap && c.entries == x[snap.lastIndex..n] && snap.lastTerm == if snap.lastIndex == 0 then 0 else 1
    ensures LastIndex(c) == n && (snap.lastIndex <= i ==> TermAt(c, i) == if 0 < i <= n then 1 else 0)
    ensures snap.lastIndex < n ==> c.entries[0].index == snap.lastIndex + 1
  {
  }

  lemma StoreIs(x: Log, c: State, snap: Snapshot, p: nat, n: nat)
    requires Shaped(x) && snap.lastIndex <= p < n <= 5 && c.snap == snap && c.entries == x[snap.lastIndex..p] && c.commitIndex <= p
    requires snap.lastTerm == if snap.lastIndex == 0 then 0 else 1
    ensures StoreNew(c, x[p..n]) == c.(entries := x[snap.lastIndex..n])
  {
    SeesTerm(x, c, snap, p, p);
    var es := x[p..n];
    assert es[0].index == p + 1;
    assert FirstNew(c, es, 0) == 0 && es[0..] == es;
    assert x[snap.lastIndex..p] + x[p..n] == x[snap.lastIndex..n];
  }

  lemma AdvanceToIs(x: Log, c: State, snap: Snapshot, n: nat, lc: nat)
    requires Shaped(x) && snap.lastIndex <= n <= 5 && c.snap == snap && c.entries == x[snap.lastIndex..n] && Drained(c)
    requires snap.lastIndex <= c.commitIndex == c.lastDelivered <= n
    ensures var m := if lc <= c.commitIndex then c.commitIndex else if lc < n then lc else n;
            AdvanceTo(c, lc, n) == c.(commitIndex := m, lastDelivered := m, committed := x[c.commitIndex..m])
  {
    var m := if lc <= c.commitIndex then c.commitIndex else if lc < n then lc else n;
    if c.commitIndex < m {
      DeliverIs(x, c.(commitIndex := m), n);
    }
  }

  lemma AcceptedIs(c: State, q: AppendRequest, e: State, n: nat)
    requires c.term <= q.term && n == q.prevIndex + |q.entries| && !e.halted
    requires var c1 := Recognize(c, q.term, q.leader);
             c1.term == q.term && Conflict(c1, q).None? && StoreNew(c1, q.entries) == e
    ensures HandleAppendEntries(c, q) == (AdvanceTo(e, q.leaderCommit, n), Ok(q))
  {
  }

  /** A follower takes the entries that continue its log. */
  lemma AcceptIs(x: Log, c: State, term: nat, snap: Snapshot, p: nat, commit: nat, n: nat, lc: nat, seqNo: nat)
    requires Shaped(x) && snap.lastIndex <= commit <= p < n <= 5 && snap.lastTerm == if snap.lastIndex == 0 then 0 else 1
    requires term <= 1 && View(c) == Follow(x, term, snap, p, commit, commit) && Plain(c) && Drained(c)
    ensures var (d, r) := HandleAppendEntries(c, Ask(x, p, n, lc, seqNo));
            var m := if lc <= commit then commit else if lc < n then lc else n;
            View(d) == Follow(x, 1, snap, n, m, m) && Plain(d) && d.outbox == [] && r == Ok(Ask(x, p, n, lc, seqNo))
  {
    RecognizeIs(c, Follow(x, term, snap, p, commit, commit), 1, 1);
    var c1 := Recognize(c, 1, 1);
    SeesTerm(x, c1, snap, p, p);
    StoreIs(x, c1, snap, p, n);
    var e := c1.(entries := x[snap.lastIndex..n]);
    AcceptedIs(c, Ask(x, p, n, lc, seqNo), e, n);
    AdvanceToIs(x, e, snap, n, lc);
  }

  lemma Accepts(x: Log, run: seq<Event>, v: Id, term: nat, snap: Snapshot, p: nat, commit: nat, n: nat, lc: nat, seqNo: nat,
                k1: Summary, k2: Summary, k3: Summary, ms: set<Message>) returns (r: seq<Event>)
    requires Shaped(x) && snap.lastIndex <= commit <= p < n <= 5 && snap.lastTerm == if snap.lastIndex == 0 then 0 else 1
    requires Reached(run, k1, k2, k3, ms) && AskAppend(v, Ask(x, p, n, lc, seqNo)) in ms
    requires term <= 1 && (v == 2 || v == 3) && (if v == 2 then k2 else k3) == Follow(x, term, snap, p, commit, commit)
    ensures r == run + [Event(v, Peers(v), Receive(AskAppend(v, Ask(x, p, n, lc, seqNo)), false))]
    ensures var m := if lc <= commit then commit else if lc < n then lc else n;
            var k := Follow(x, 1, snap, n, m, m);
            Reached(r, k1, if v == 2 then k else k2, if v == 3 then k else k3,
                  ms + {TellAppend(v, 1, Ask(x, p, n, lc, seqNo), Ok(Ask(x, p, n, lc, seqNo)))})
  {
    Open(run, k1, k2, k3, ms);
    var q := Ask(x, p, n, lc, seqNo);
    var s, a := Exec(M, run), Receive(AskAppend(v, q), false);
    AcceptIs(x, s.nodes[v].core, term, snap, p, commit, n, lc, seqNo);
    var d := HandleAppendEntries(s.nodes[v].core, q).0;
    var reply := [TellAppend(v, 1, q, Ok(q))];
    r := Take(run, v, a, k1, k2, k3, ms, s.nodes[v].(core := d), reply);
    AsSetOne(reply);
  }

  /** A late batch that node 2 holds already, but that carries a higher commit index than it reaches. */
  lemma FallIs(x: Log, c: State, seqNo: nat)
    requires Shaped(x) && View(c) == Follow(x, 1, EMPTY_SNAPSHOT, 4, 4, 4) && Plain(c) && Drained(c)
    ensures var (d, r) := HandleAppendEntries(c, Ask(x, 0, 2, 5, seqNo));
            View(d) == Follow(x, 1, EMPTY_SNAPSHOT, 4, 2, 4) && Plain(d) && d.outbox == []
  {
    RecognizeIs(c, Follow(x, 1, EMPTY_SNAPSHOT, 4, 4, 4), 1, 1);
    var c1, es := Recognize(c, 1, 1), x[0..2];
    SeesTerm(x, c1, EMPTY_SNAPSHOT, 4, 1);
    SeesTerm(x, c1, EMPTY_SNAPSHOT, 4, 2);
    assert !IsNew(c1, es[0]) && !IsNew(c1, es[1]);
    assert FirstNew(c1, es, 1) == 2 && FirstNew(c1, es, 0) == 2;
  }

  lemma Falls(x: Log, run: seq<Event>, seqNo: nat, k1: Summary, k3: Summary, ms: set<Message>) returns (r: seq<Event>)
    requires Shaped(x) && Reached(run, k1, Follow(x, 1, EMPTY_SNAPSHOT, 4, 4, 4), k3, ms)
    requires AskAppend(2, Ask(x, 0, 2, 5, seqNo)) in ms
    ensures r == run + [Event(2, Peers(2), Receive(AskAppend(2, Ask(x, 0, 2, 5, seqNo)), false))]
    ensures Reached(r, k1, Follow(x, 1, EMPTY_SNAPSHOT, 4, 2, 4), k3, ms)
  {
    Open(run, k1, Follow(x, 1, EMPTY_SNAPSHOT, 4, 4, 4), k3, ms);
    var q := Ask(x, 0, 2, 5, seqNo);
    var s, a := Exec(M, run), Receive(AskAppend(2, q), false);
    FallIs(x, s.nodes[2].core, seqNo);
    var (d, b) := HandleAppendEntries(s.nodes[2].core, q);
    r := Take(run, 2, a, k1, Follow(x, 1, EMPTY_SNAPSHOT, 4, 4, 4), k3, ms, s.nodes[2].(core := d), [TellAppend(2, 1, q, b)]);
  }

  // ---- node 3 compacts ----

  function Snap(x: Log): Snapshot
    requires |x| == 5
  {
    Snapshot(3, 1, x[..3], x[..3])
  }

  lemma CompactIs(x: Log, c: State)
    requires Shaped(x) && View(c) == Follow(x, 1, EMPTY_SNAPSHOT, 4, 3, 3) && Plain(c) && Drained(c)
    ensures var d := Compact(c, 3, x[..3]); View(d) == Follow(x, 1, Snap(x), 4, 3, 3) && Plain(d) && d.outbox == []
  {
    SeesTerm(x, c, EMPTY_SNAPSHOT, 4, 3);
    assert [] + x[0..4][..3] == x[..3];
    Piece(x, 0, 4, 3, 4);
  }

  /** In a run without installs every node has applied exactly what it delivered. */
  lemma AppliedAll(run: seq<Event>, v: Id)
    requires NoInstalls(run) && v in Exec(M, run).nodes
    ensures Intact(Exec(M, run).nodes[v])
  {
    forall i: nat
      ensures Unrewound(M, run, i)
    {
    }
    IntactUpTo(M, run, |run|);
    assert run[..|run|] == run;
  }

  lemma Snapshots(x: Log, run: seq<Event>, k1: Summary, k2: Summary, ms: set<Message>) returns (r: seq<Event>)
    requires Shaped(x) && Reached(run, k1, k2, Follow(x, 1, EMPTY_SNAPSHOT, 4, 3, 3), ms)
    ensures r == run + [Event(3, Peers(3), TakeSnapshot)]
    ensures Reached(r, k1, k2, Follow(x, 1, Snap(x), 4, 3, 3), ms)
  {
    Open(run, k1, k2, Follow(x, 1, EMPTY_SNAPSHOT, 4, 3, 3), ms);
    var s := Exec(M, run);
    AppliedAll(run, 3);
    assert Full(s.nodes[3].core)[..3] == x[..3];
    CompactIs(x, s.nodes[3].core);
    var d := Compact(s.nodes[3].core, 3, x[..3]);
    r := Take(run, 3, TakeSnapshot, k1, k2, Follow(x, 1, EMPTY_SNAPSHOT, 4, 3, 3), ms, s.nodes[3].(core := d), []);
  }

  // ---- elections ----

  /** The index and the term a log ends in. */
  function Last(k: Summary): (nat, nat)
  {
    if k.entries == [] then (k.snap.lastIndex, k.snap.lastTerm)
    else (k.entries[|k.entries| - 1].index, k.entries[|k.entries| - 1].term)
  }

  lemma StandIs(c: State, v: Id, k: Summary, req: VoteRequest)
    requires v in M && View(c) == k && k.role.Follower? && Plain(c) && Drained(c)
    requires req == VoteRequest(k.term + 1, v, LastIndex(c), LastLogTerm(c), false)
    ensures var d := ElectionTimeout(Cfg(v), c, true);
            && View(d) == k.(role := Candidate, term := k.term + 1, votes := {v}) && Plain(d)
            && d.outbox == [AskVote(Peers(v)[0], req), AskVote(Peers(v)[1], req)]
  {
    assert |M| == 3 && |{v}| == 1;
    assert AskPeers(Peers(v), req) == [AskVote(Peers(v)[0], req), AskVote(Peers(v)[1], req)];
  }

  lemma Stands(run: seq<Event>, v: Id, req: VoteRequest, k1: Summary, k2: Summary, k3: Summary, ms: set<Message>) returns (r: seq<Event>)
    requires Reached(run, k1, k2, k3, ms) && (v == 1 || v == 3)
    requires var k := if v == 1 then k1 else k3; k.role.Follower? && req == VoteRequest(k.term + 1, v, Last(k).0, Last(k).1, false)
    ensures r == run + [Event(v, Peers(v), Timeout(true))]
    ensures var k := (if v == 1 then k1 else k3).(role := Candidate, votes := {v});
            Reached(r, if v == 1 then k.(term := k1.term + 1) else k1, k2, if v == 3 then k.(term := k3.term + 1) else k3,
                  ms + {AskVote(Peers(v)[0], req), AskVote(Peers(v)[1], req)})
  {
    Open(run, k1, k2, k3, ms);
    var s := Exec(M, run);
    StandIs(s.nodes[v].core, v, if v == 1 then k1 else k3, req);
    var d := ElectionTimeout(Cfg(v), s.nodes[v].core, true);
    r := Take(run, v, Timeout(true), k1, k2, k3, ms, s.nodes[v].(core := d), []);
    AsSetTwo(d.outbox);
  }

  lemma VoteIs(c: State, k: Summary, req: VoteRequest)
    requires View(c) == k && k.term < req.term && !req.preVote && Plain(c) && Drained(c)
    requires LogUpToDate(c, req.lastIndex, req.lastTerm)
    ensures var (d, r) := HandleRequestVote(c, req, false);
            && View(d) == k.(role := Follower, term := req.term, votes := {}) && Plain(d) && d.outbox == []
            && r == VoteReply(req.term, true)
  {
  }

  lemma Votes(run: seq<Event>, v: Id, req: VoteRequest, k1: Summary, k2: Summary, k3: Summary, ms: set<Message>) returns (r: seq<Event>)
    requires Reached(run, k1, k2, k3, ms) && (v == 1 || v == 3) && AskVote(v, req) in ms
    requires (if v == 1 then k1 else k3).term < req.term && !req.preVote
    requires Last(if v == 1 then k1 else k3) == (req.lastIndex, req.lastTerm)
    ensures r == run + [Event(v, Peers(v), Receive(AskVote(v, req), false))]
    ensures Reached(r, if v == 1 then k1.(role := Follower, term := req.term, votes := {}) else k1, k2,
                  if v == 3 then k3.(role := Follower, term := req.term, votes := {}) else k3,
                  ms + {TellVote(v, req.candidate, req, VoteReply(req.term, true))})
  {
    Open(run, k1, k2, k3, ms);
    var s := Exec(M, run);
    VoteIs(s.nodes[v].core, if v == 1 then k1 else k3, req);
    var d := HandleRequestVote(s.nodes[v].core, req, false).0;
    var reply := [TellVote(v, req.candidate, req, VoteReply(req.term, true))];
    r := Take(run, v, Receive(AskVote(v, req), false), k1, k2, k3, ms, s.nodes[v].(core := d), reply);
    AsSetOne(reply);
  }

  /** The vote that makes a majority. */
  lemma ElectedIs(v: Id, c: State, u: Id, req: VoteRequest, both: set<Id>)
    requires c.role.Candidate? && c.term == req.term && c.votes + {u} == both && |both| >= Majority(M)
    ensures HandleVoteReply(Cfg(v), c, u, req, VoteReply(req.term, true))
         == MaybeAdvanceCommit(Cfg(v), BroadcastAppends(Cfg(v), BecomeLeader(Cfg(v), c.(votes := both))))
  {
  }

  const V1 := VoteRequest(1, 1, 0, 0, false)

  lemma OfficeIs(x: Log, c: State)
    requires Shaped(x) && View(c) == Follow(x, 1, EMPTY_SNAPSHOT, 0, 0, 0).(role := Candidate, votes := {1, 3}) && Plain(c) && Drained(c)
    ensures var e := BecomeLeader(Cfg(1), c);
            View(e) == Lead(x, 1, 0, map[2 := 1, 3 := 1], map[], 0) && Plain(e) && Drained(e)
  {
    assert x[..1] == [x[0]] && x[0] == Entry(1, 1, KIND_NOOP, []);
    assert BecomeLeader(Cfg(1), c).nextIndex == map[2 := 1, 3 := 1];
  }

  lemma AnnounceIs(x: Log, e: State, next: map<Id, nat>)
    requires Shaped(x) && next == map[2 := 1, 3 := 1] && View(e) == Lead(x, 1, 0, next, map[], 0) && Plain(e) && Drained(e)
    ensures var d := MaybeAdvanceCommit(Cfg(1), BroadcastAppends(Cfg(1), e));
            && View(d) == Lead(x, 1, 0, next, map[], 2) && Plain(d)
            && d.outbox == [AskAppend(2, Ask(x, 0, 1, 0, 1)), AskAppend(3, Ask(x, 0, 1, 0, 2))]
  {
    BroadcastIs(x, e, 1, 0, next, map[], 0);
    AdvanceIs(x, BroadcastAppends(Cfg(1), e), 1, 0, next, map[], 2, 0);
  }

  lemma WinIs(x: Log, c: State, k: Summary)
    requires Shaped(x) && View(c) == k == Follow(x, 1, EMPTY_SNAPSHOT, 0, 0, 0).(role := Candidate, votes := {1}) && Plain(c) && Drained(c)
    ensures var d := HandleVoteReply(Cfg(1), c, 3, V1, VoteReply(1, true));
            && View(d) == Lead(x, 1, 0, map[2 := 1, 3 := 1], map[], 2) && Plain(d)
            && d.outbox == [AskAppend(2, Ask(x, 0, 1, 0, 1)), AskAppend(3, Ask(x, 0, 1, 0, 2))]
  {
    assert c.votes + {3} == {1, 3} && |{1, 3}| == 2 && |M| == 3;
    ElectedIs(1, c, 3, V1, {1, 3});
    OfficeIs(x, c.(votes := {1, 3}));
    AnnounceIs(x, BecomeLeader(Cfg(1), c.(votes := {1, 3})), map[2 := 1, 3 := 1]);
  }

  lemma Wins(x: Log, run: seq<Event>, k1: Summary, k2: Summary, k3: Summary, ms: set<Message>) returns (r: seq<Event>)
    requires Shaped(x) && Reached(run, k1, k2, k3, ms)
    requires k1 == Follow(x, 1, EMPTY_SNAPSHOT, 0, 0, 0).(role := Candidate, votes := {1})
    requires TellVote(3, 1, V1, VoteReply(1, true)) in ms
    ensures r == run + [Event(1, Peers(1), Receive(TellVote(3, 1, V1, VoteReply(1, true)), false))]
    ensures Reached(r, Lead(x, 1, 0, map[2 := 1, 3 := 1], map[], 2), k2, k3,
                  ms + {AskAppend(2, Ask(x, 0, 1, 0, 1)), AskAppend(3, Ask(x, 0, 1, 0, 2))})
  {
    Open(run, k1, k2, k3, ms);
    var s := Exec(M, run);
    WinIs(x, s.nodes[1].core, k1);
    var d := HandleVoteReply(Cfg(1), s.nodes[1].core, 3, V1, VoteReply(1, true));
    r := Take(run, 1, Receive(TellVote(3, 1, V1, VoteReply(1, true)), false), k1, k2, k3, ms, s.nodes[1].(core := d), []);
    AsSetTwo(d.outbox);
  }

  // ---- node 3 leads term 2 ----

  const V2 := VoteRequest(2, 3, 5, 1, false)
  const SIXTH := Entry(2, 6, KIND_NOOP, [])

  /** What node 3 sends once it has won. */
  function Next(seqNo: nat): AppendRequest
  {
    AppendRequest(2, 3, 5, 1, [SIXTH], 4, seqNo)
  }

  const NO := AppendReply(2, 2, false, 0, 5)

  function Lead3(x: Log, next: map<Id, nat>, seqNo: nat): Summary
    requires |x| == 5
  {
    Summary(Leader, 2, Snap(x), x[3..5] + [SIXTH], 4, 4, next, map[], seqNo, {3, 1})
  }

  lemma TermIn(x: Log, c: State, next: map<Id, nat>, seqNo: nat)
    requires Shaped(x) && View(c) == Lead3(x, next, seqNo)
    ensures LastIndex(c) == 6 && TermAt(c, 6) == 2 && TermAt(c, 5) == 1
  {
    assert c.entries[0].index == 4 && c.entries[1].term == 1;
  }

  lemma SendNext(x: Log, c: State, next: map<Id, nat>, seqNo: nat, peer: Id)
    requires Shaped(x) && View(c) == Lead3(x, next, seqNo) && peer in next && next[peer] == 6
    ensures SendAppend(Cfg(3), c, peer) == c.(appendSeq := seqNo + 1, outbox := c.outbox + [AskAppend(peer, Next(seqNo + 1))])
  {
    TermIn(x, c, next, seqNo);
    var es := c.entries;
    assert es[2] == SIXTH && |es| == 3;
    assert BatchEnd(es, 2, MAX_APPEND_BYTES) == BatchEnd(es, 3, MAX_APPEND_BYTES) == 3;
    assert es[2..3] == [SIXTH];
  }

  lemma NoneHold(x: Log, c: State, next: map<Id, nat>, seqNo: nat)
    requires Shaped(x) && View(c) == Lead3(x, next, seqNo)
    ensures MaybeAdvanceCommit(Cfg(3), c) == c
  {
    TermIn(x, c, next, seqNo);
    assert |M| == 3;
    SubsetSize(Holders(Cfg(3), c, 6), {3});
    assert ScanCommit(Cfg(3), c, 5) == 4;
  }

  lemma OfficeAgainIs(x: Log, c: State)
    requires Shaped(x) && View(c) == Follow(x, 2, Snap(x), 5, 4, 4).(role := Candidate, votes := {3, 1}) && Plain(c) && Drained(c)
    ensures var e := BecomeLeader(Cfg(3), c);
            View(e) == Lead3(x, map[1 := 6, 2 := 6], 0) && Plain(e) && Drained(e)
  {
    SeesTerm(x, c, Snap(x), 5, 5);
    assert BecomeLeader(Cfg(3), c).nextIndex == map[1 := 6, 2 := 6];
  }

  lemma BroadcastNext(x: Log, e: State, next: map<Id, nat>)
    requires Shaped(x) && next == map[1 := 6, 2 := 6] && View(e) == Lead3(x, next, 0) && Drained(e)
    ensures BroadcastAppends(Cfg(3), e) == e.(appendSeq := 2, outbox := [AskAppend(1, Next(1)), AskAppend(2, Next(2))])
  {
    SendNext(x, e, next, 0, 1);
    var g := SendAppend(Cfg(3), e, 1);
    SendNext(x, g, next, 1, 2);
    assert [1, 2][..1] == [1] && [1][..0] == [];
    assert BroadcastTo(Cfg(3), e, [1]) == SendAppend(Cfg(3), BroadcastTo(Cfg(3), e, []), 1);
  }

  lemma WinAgainIs(x: Log, c: State, k: Summary)
    requires Shaped(x) && View(c) == k == Follow(x, 2, Snap(x), 5, 4, 4).(role := Candidate, votes := {3}) && Plain(c) && Drained(c)
    ensures var d := HandleVoteReply(Cfg(3), c, 1, V2, VoteReply(2, true));
            && View(d) == Lead3(x, map[1 := 6, 2 := 6], 2) && Plain(d)
            && d.outbox == [AskAppend(1, Next(1)), AskAppend(2, Next(2))]
  {
    var next: map<Id, nat> := map[1 := 6, 2 := 6];
    assert c.votes + {1} == {3, 1} && |{3, 1}| == 2 && |M| == 3;
    ElectedIs(3, c, 1, V2, {3, 1});
    OfficeAgainIs(x, c.(votes := {3, 1}));
    var e := BecomeLeader(Cfg(3), c.(votes := {3, 1}));
    BroadcastNext(x, e, next);
    NoneHold(x, BroadcastAppends(Cfg(3), e), next, 2);
  }

  lemma WinsAgain(x: Log, run: seq<Event>, k1: Summary, k2: Summary, k3: Summary, ms: set<Message>) returns (r: seq<Event>)
    requires Shaped(x) && Reached(run, k1, k2, k3, ms)
    requires k3 == Follow(x, 2, Snap(x), 5, 4, 4).(role := Candidate, votes := {3})
    requires TellVote(1, 3, V2, VoteReply(2, true)) in ms
    ensures r == run + [Event(3, Peers(3), Receive(TellVote(1, 3, V2, VoteReply(2, true)), false))]
    ensures Reached(r, k1, k2, Lead3(x, map[1 := 6, 2 := 6], 2), ms + {AskAppend(1, Next(1)), AskAppend(2, Next(2))})
  {
    Open(run, k1, k2, k3, ms);
    var s := Exec(M, run);
    WinAgainIs(x, s.nodes[3].core, k3);
    var d := HandleVoteReply(Cfg(3), s.nodes[3].core, 1, V2, VoteReply(2, true));
    r := Take(run, 3, Receive(TellVote(1, 3, V2, VoteReply(2, true)), false), k1, k2, k3, ms, s.nodes[3].(core := d), []);
    AsSetTwo(d.outbox);
  }

  lemma RefuseIs(x: Log, c: State)
    requires Shaped(x) && View(c) == Follow(x, 1, EMPTY_SNAPSHOT, 4, 2, 4) && Plain(c) && Drained(c)
    ensures var (d, r) := HandleAppendEntries(c, Next(2));
            View(d) == Follow(x, 2, EMPTY_SNAPSHOT, 4, 2, 4) && Plain(d) && d.outbox == [] && r == NO
  {
    RecognizeIs(c, Follow(x, 1, EMPTY_SNAPSHOT, 4, 2, 4), 2, 3);
    SeesTerm(x, Recognize(c, 2, 3), EMPTY_SNAPSHOT, 4, 4);
  }

  lemma Declines(x: Log, run: seq<Event>, k1: Summary, k3: Summary, ms: set<Message>) returns (r: seq<Event>)
    requires Shaped(x) && Reached(run, k1, Follow(x, 1, EMPTY_SNAPSHOT, 4, 2, 4), k3, ms)
    requires AskAppend(2, Next(2)) in ms
    ensures r == run + [Event(2, Peers(2), Receive(AskAppend(2, Next(2)), false))]
    ensures Reached(r, k1, Follow(x, 2, EMPTY_SNAPSHOT, 4, 2, 4), k3, ms + {TellAppend(2, 3, Next(2), NO)})
  {
    Open(run, k1, Follow(x, 1, EMPTY_SNAPSHOT, 4, 2, 4), k3, ms);
    var s := Exec(M, run);
    RefuseIs(x, s.nodes[2].core);
    var d, reply := HandleAppendEntries(s.nodes[2].core, Next(2)).0, [TellAppend(2, 3, Next(2), NO)];
    r := Take(run, 2, Receive(AskAppend(2, Next(2)), false), k1, Follow(x, 1, EMPTY_SNAPSHOT, 4, 2, 4), k3, ms, s.nodes[2].(core := d), reply);
    AsSetOne(reply);
  }

  /** One refusal: nextIndex goes down by one, and at the snapshot's index the snapshot is sent. */
  lemma BackIs(x: Log, c: State, next: map<Id, nat>, seqNo: nat)
    requires Shaped(x) && View(c) == Lead3(x, next, seqNo) && Plain(c) && Drained(c) && 2 in next && 4 <= next[2] <= 6
    ensures var d := HandleRejection(Cfg(3), c, 2, NO);
            && View(d) == Lead3(x, next[2 := next[2] - 1], d.appendSeq) && Plain(d)
            && (next[2] == 4 ==> d.outbox == [AskInstall(2, SnapRequest(2, 3, Snap(x)))])
  {
    assert Backoff(c, 2, NO) == next[2] - 1;
  }

  lemma Backs(x: Log, run: seq<Event>, next: map<Id, nat>, seqNo: nat, k1: Summary, k2: Summary, ms: set<Message>)
    returns (r: seq<Event>, seqNo1: nat)
    requires Shaped(x) && Reached(run, k1, k2, Lead3(x, next, seqNo), ms)
    requires 2 in next && 4 <= next[2] <= 6 && TellAppend(2, 3, Next(2), NO) in ms
    ensures r == run + [Event(3, Peers(3), Receive(TellAppend(2, 3, Next(2), NO), false))]
    ensures Reached(r, k1, k2, Lead3(x, next[2 := next[2] - 1], seqNo1),
                  ms + if next[2] == 4 then {AskInstall(2, SnapRequest(2, 3, Snap(x)))} else {})
  {
    Open(run, k1, k2, Lead3(x, next, seqNo), ms);
    var s := Exec(M, run);
    BackIs(x, s.nodes[3].core, next, seqNo);
    RejectionHandled(Cfg(3), s.nodes[3], 2, Next(2), NO);
    var d := HandleRejection(Cfg(3), s.nodes[3].core, 2, NO);
    seqNo1 := d.appendSeq;
    r := Take(run, 3, Receive(TellAppend(2, 3, Next(2), NO), false), k1, k2, Lead3(x, next, seqNo), ms, s.nodes[3].(core := d), []);
    if next[2] == 4 { AsSetOne(d.outbox); }
  }

  // ---- the runs ----

  // The same events once more, each with its outcome spelled out.

  lemma Accepts2(x: Log, run: seq<Event>, term: nat, p: nat, commit: nat, n: nat, lc: nat, seqNo: nat, m: nat,
                 k1: Summary, k3: Summary, ms: set<Message>) returns (r: seq<Event>)
    requires Shaped(x) && commit <= p < n <= 5 && term <= 1 && AskAppend(2, Ask(x, p, n, lc, seqNo)) in ms
    requires Reached(run, k1, Follow(x, term, EMPTY_SNAPSHOT, p, commit, commit), k3, ms)
    requires m == if lc <= commit then commit else if lc < n then lc else n
    ensures Reached(r, k1, Follow(x, 1, EMPTY_SNAPSHOT, n, m, m), k3,
                    ms + {TellAppend(2, 1, Ask(x, p, n, lc, seqNo), Ok(Ask(x, p, n, lc, seqNo)))})
  {
    r := Accepts(x, run, 2, term, EMPTY_SNAPSHOT, p, commit, n, lc, seqNo, k1, Follow(x, term, EMPTY_SNAPSHOT, p, commit, commit), k3, ms);
  }

  lemma Accepts3(x: Log, run: seq<Event>, snap: Snapshot, p: nat, commit: nat, n: nat, lc: nat, seqNo: nat, m: nat,
                 k1: Summary, k2: Summary, ms: set<Message>) returns (r: seq<Event>)
    requires Shaped(x) && snap.lastIndex <= commit <= p < n <= 5 && snap.lastTerm == if snap.lastIndex == 0 then 0 else 1
    requires Reached(run, k1, k2, Follow(x, 1, snap, p, commit, commit), ms) && AskAppend(3, Ask(x, p, n, lc, seqNo)) in ms
    requires m == if lc <= commit then commit else if lc < n then lc else n
    ensures Reached(r, k1, k2, Follow(x, 1, snap, n, m, m),
                    ms + {TellAppend(3, 1, Ask(x, p, n, lc, seqNo), Ok(Ask(x, p, n, lc, seqNo)))})
  {
    r := Accepts(x, run, 3, 1, snap, p, commit, n, lc, seqNo, k1, k2, Follow(x, 1, snap, p, commit, commit), ms);
  }

  /** The answer to all that node 1 has. */
  lemma AckedLast(x: Log, run: seq<Event>, n: nat, commit: nat, next: map<Id, nat>, matched: map<Id, nat>, seqNo: nat,
                  k2: Summary, k3: Summary, ms: set<Message>, p: nat, lc: nat, ack: nat) returns (r: seq<Event>)
    requires Shaped(x) && p <= n <= 5 && commit < n && Reached(run, Lead(x, n, commit, next, matched, seqNo), k2, k3, ms)
    requires Get(matched, 2) <= commit && Get(matched, 3) <= commit
    requires TellAppend(3, 1, Ask(x, p, n, lc, ack), Ok(Ask(x, p, n, lc, ack))) in ms
    ensures Reached(r, Lead(x, n, n, next[3 := n + 1], matched[3 := n], seqNo), k2, k3, ms)
  {
    r := Acked(x, run, n, commit, next, matched, seqNo, k2, k3, ms, 3, p, n, lc, ack);
    assert ms + {} == ms;
  }

  /** The answer to part of it. */
  lemma AckedPart(x: Log, run: seq<Event>, n: nat, commit: nat, next: map<Id, nat>, matched: map<Id, nat>, seqNo: nat,
                  k2: Summary, k3: Summary, ms: set<Message>, u: Id, p: nat, m: nat, lc: nat, ack: nat, k: nat, end: nat)
    returns (r: seq<Event>)
    requires Shaped(x) && p <= m < n <= 5 && commit <= n && Reached(run, Lead(x, n, commit, next, matched, seqNo), k2, k3, ms)
    requires (u == 2 || u == 3) && Get(matched, 2) <= commit && Get(matched, 3) <= commit && Get(matched, u) < m
    requires TellAppend(u, 1, Ask(x, p, m, lc, ack), Ok(Ask(x, p, m, lc, ack))) in ms
    requires k == (if commit < m then m else commit) && m <= end == End(n, m) <= n
    ensures Reached(r, Lead(x, n, k, next[u := m + 1], matched[u := m], seqNo + 1), k2, k3,
                    ms + {AskAppend(u, Ask(x, m, end, k, seqNo + 1))})
  {
    r := Acked(x, run, n, commit, next, matched, seqNo, k2, k3, ms, u, p, m, lc, ack);
  }

  lemma Proposed(x: Log, run: seq<Event>, n: nat, commit: nat, next: map<Id, nat>, matched: map<Id, nat>, seqNo: nat,
                 k2: Summary, k3: Summary, ms: set<Message>, to: nat, q: nat, end: nat) returns (r: seq<Event>)
    requires Shaped(x) && 0 < n < 5 && commit <= n && Reached(run, Lead(x, n, commit, next, matched, seqNo), k2, k3, ms)
    requires 2 in next && 3 in next && next[2] == 1 && next[3] == q + 1 && q <= n && to == n + 1 && q <= end == End(to, q) <= to
    requires Get(matched, 2) <= commit && Get(matched, 3) <= commit
    ensures Reached(r, Lead(x, to, commit, next, matched, seqNo + 2), k2, k3,
                    ms + {AskAppend(2, Ask(x, 0, 2, commit, seqNo + 1)), AskAppend(3, Ask(x, q, end, commit, seqNo + 2))})
  {
    r := Proposes(x, run, n, commit, next, matched, seqNo, k2, k3, ms);
  }

  lemma Begin(x: Log)
    requires Shaped(x)
    ensures var f0 := Follow(x, 0, EMPTY_SNAPSHOT, 0, 0, 0); Reached([], f0, f0, f0, {}) && Last(f0) == (0, 0)
  {
    var f0 := Follow(x, 0, EMPTY_SNAPSHOT, 0, 0, 0);
    assert x[0..0] == [];
    Close([], f0, f0, f0, {});
  }

  /** Node 1 is elected by node 3. */
  lemma Voted(x: Log) returns (run: seq<Event>, ms: set<Message>)
    requires Shaped(x)
    ensures Reached(run, Lead(x, 1, 0, map[2 := 1, 3 := 1], map[], 2), Follow(x, 0, EMPTY_SNAPSHOT, 0, 0, 0),
                    Follow(x, 1, EMPTY_SNAPSHOT, 0, 0, 0), ms)
    ensures AskAppend(3, Ask(x, 0, 1, 0, 2)) in ms
  {
    var f0, f1 := Follow(x, 0, EMPTY_SNAPSHOT, 0, 0, 0), Follow(x, 1, EMPTY_SNAPSHOT, 0, 0, 0);
    var c := f1.(role := Candidate, votes := {1});
    run, ms := [], {};
    Begin(x);
    run := Stands(run, 1, V1, f0, f0, f0, ms);
    ms := ms + {AskVote(2, V1), AskVote(3, V1)};
    run := Votes(run, 3, V1, c, f0, f0, ms);
    ms := ms + {TellVote(3, 1, V1, VoteReply(1, true))};
    run := Wins(x, run, c, f0, f1, ms);
    ms := ms + {AskAppend(2, Ask(x, 0, 1, 0, 1)), AskAppend(3, Ask(x, 0, 1, 0, 2))};
  }

  /** It has proposed the first two commands. */
  lemma Elected(x: Log) returns (run: seq<Event>, ms: set<Message>, next: map<Id, nat>, matched: map<Id, nat>)
    requires Shaped(x)
    ensures Reached(run, Lead(x, 3, 0, next, matched, 6), Follow(x, 0, EMPTY_SNAPSHOT, 0, 0, 0), Follow(x, 1, EMPTY_SNAPSHOT, 0, 0, 0), ms)
    ensures AskAppend(3, Ask(x, 0, 1, 0, 2)) in ms && AskAppend(2, Ask(x, 0, 2, 0, 3)) in ms && AskAppend(3, Ask(x, 0, 2, 0, 4)) in ms
    ensures 2 in next && 3 in next && next[2] == 1 && next[3] == 1 && Get(matched, 2) == 0 && Get(matched, 3) == 0
  {
    var f0, f1 := Follow(x, 0, EMPTY_SNAPSHOT, 0, 0, 0), Follow(x, 1, EMPTY_SNAPSHOT, 0, 0, 0);
    next, matched := map[2 := 1, 3 := 1], map[];
    run, ms := Voted(x);
    run := Proposed(x, run, 1, 0, next, matched, 2, f0, f1, ms, 2, 0, 2);
    ms := ms + {AskAppend(2, Ask(x, 0, 2, 0, 3)), AskAppend(3, Ask(x, 0, 2, 0, 4))};
    run := Proposed(x, run, 2, 0, next, matched, 4, f0, f1, ms, 3, 0, 2);
    ms := ms + {AskAppend(2, Ask(x, 0, 2, 0, 5)), AskAppend(3, Ask(x, 0, 2, 0, 6))};
  }

  /** Node 3 has stored two entries, and node 1 has committed them. */
  lemma Two(x: Log) returns (run: seq<Event>, ms: set<Message>, next: map<Id, nat>, matched: map<Id, nat>)
    requires Shaped(x)
    ensures Reached(run, Lead(x, 3, 2, next, matched, 7), Follow(x, 0, EMPTY_SNAPSHOT, 0, 0, 0), Follow(x, 1, EMPTY_SNAPSHOT, 2, 0, 0), ms)
    ensures AskAppend(3, Ask(x, 0, 1, 0, 2)) in ms && AskAppend(2, Ask(x, 0, 2, 0, 3)) in ms && AskAppend(3, Ask(x, 2, 3, 2, 7)) in ms
    ensures 2 in next && 3 in next && next[2] == 1 && next[3] == 3 && Get(matched, 2) == 0 && Get(matched, 3) == 2
  {
    var f0 := Follow(x, 0, EMPTY_SNAPSHOT, 0, 0, 0);
    run, ms, next, matched := Elected(x);
    run := Accepts3(x, run, EMPTY_SNAPSHOT, 0, 0, 2, 0, 4, 0, Lead(x, 3, 0, next, matched, 6), f0, ms);
    ms := ms + {TellAppend(3, 1, Ask(x, 0, 2, 0, 4), Ok(Ask(x, 0, 2, 0, 4)))};
    run := AckedPart(x, run, 3, 0, next, matched, 6, f0, Follow(x, 1, EMPTY_SNAPSHOT, 2, 0, 0), ms, 3, 0, 2, 0, 4, 2, 3);
    next, matched, ms := next[3 := 3], matched[3 := 2], ms + {AskAppend(3, Ask(x, 2, 3, 2, 7))};
  }

  /** Node 3 has stored three entries, all of them committed at node 1. */
  lemma Three(x: Log) returns (run: seq<Event>, ms: set<Message>, next: map<Id, nat>, matched: map<Id, nat>)
    requires Shaped(x)
    ensures Reached(run, Lead(x, 3, 3, next, matched, 7), Follow(x, 0, EMPTY_SNAPSHOT, 0, 0, 0), Follow(x, 1, EMPTY_SNAPSHOT, 3, 2, 2), ms)
    ensures AskAppend(3, Ask(x, 0, 1, 0, 2)) in ms && AskAppend(2, Ask(x, 0, 2, 0, 3)) in ms
    ensures 2 in next && 3 in next && next[2] == 1 && next[3] == 4 && Get(matched, 2) == 0 && Get(matched, 3) == 3
  {
    var f0 := Follow(x, 0, EMPTY_SNAPSHOT, 0, 0, 0);
    run, ms, next, matched := Two(x);
    run := Accepts3(x, run, EMPTY_SNAPSHOT, 2, 0, 3, 2, 7, 2, Lead(x, 3, 2, next, matched, 7), f0, ms);
    ms := ms + {TellAppend(3, 1, Ask(x, 2, 3, 2, 7), Ok(Ask(x, 2, 3, 2, 7)))};
    run := AckedLast(x, run, 3, 2, next, matched, 7, f0, Follow(x, 1, EMPTY_SNAPSHOT, 3, 2, 2), ms, 2, 2, 7);
    next, matched := next[3 := 4], matched[3 := 3];
  }

  /** Node 3 has learnt that three entries are committed, and compacted them. */
  lemma Compacted(x: Log) returns (run: seq<Event>, ms: set<Message>, next: map<Id, nat>, matched: map<Id, nat>)
    requires Shaped(x)
    ensures Reached(run, Lead(x, 4, 3, next, matched, 9), Follow(x, 0, EMPTY_SNAPSHOT, 0, 0, 0), Follow(x, 1, Snap(x), 4, 3, 3), ms)
    ensures AskAppend(3, Ask(x, 0, 1, 0, 2)) in ms && AskAppend(2, Ask(x, 0, 2, 0, 3)) in ms
    ensures TellAppend(3, 1, Ask(x, 3, 4, 3, 9), Ok(Ask(x, 3, 4, 3, 9))) in ms
    ensures 2 in next && 3 in next && next[2] == 1 && next[3] == 4 && Get(matched, 2) == 0 && Get(matched, 3) == 3
  {
    var f0 := Follow(x, 0, EMPTY_SNAPSHOT, 0, 0, 0);
    run, ms, next, matched := Three(x);
    run := Proposed(x, run, 3, 3, next, matched, 7, f0, Follow(x, 1, EMPTY_SNAPSHOT, 3, 2, 2), ms, 4, 3, 4);
    ms := ms + {AskAppend(2, Ask(x, 0, 2, 3, 8)), AskAppend(3, Ask(x, 3, 4, 3, 9))};
    run := Accepts3(x, run, EMPTY_SNAPSHOT, 3, 2, 4, 3, 9, 3, Lead(x, 4, 3, next, matched, 9), f0, ms);
    ms := ms + {TellAppend(3, 1, Ask(x, 3, 4, 3, 9), Ok(Ask(x, 3, 4, 3, 9)))};
    run := Snapshots(x, run, Lead(x, 4, 3, next, matched, 9), f0, ms);
  }

  /** The fifth entry is proposed. */
  lemma Four(x: Log) returns (run: seq<Event>, ms: set<Message>, next: map<Id, nat>, matched: map<Id, nat>)
    requires Shaped(x)
    ensures Reached(run, Lead(x, 5, 4, next, matched, 11), Follow(x, 0, EMPTY_SNAPSHOT, 0, 0, 0), Follow(x, 1, Snap(x), 4, 3, 3), ms)
    ensures AskAppend(2, Ask(x, 0, 2, 0, 3)) in ms && AskAppend(3, Ask(x, 4, 5, 4, 11)) in ms
    ensures 2 in next && 3 in next && next[2] == 1 && next[3] == 5 && Get(matched, 2) == 0 && Get(matched, 3) == 4
  {
    var f0 := Follow(x, 0, EMPTY_SNAPSHOT, 0, 0, 0);
    run, ms, next, matched := Compacted(x);
    run := AckedLast(x, run, 4, 3, next, matched, 9, f0, Follow(x, 1, Snap(x), 4, 3, 3), ms, 3, 3, 9);
    next, matched := next[3 := 5], matched[3 := 4];
    run := Proposed(x, run, 4, 4, next, matched, 9, f0, Follow(x, 1, Snap(x), 4, 3, 3), ms, 5, 4, 5);
    ms := ms + {AskAppend(2, Ask(x, 0, 2, 4, 10)), AskAppend(3, Ask(x, 4, 5, 4, 11))};
  }

  /** Five entries are committed at node 1. */
  lemma Five(x: Log) returns (run: seq<Event>, ms: set<Message>, next: map<Id, nat>, matched: map<Id, nat>)
    requires Shaped(x)
    ensures Reached(run, Lead(x, 5, 5, next, matched, 11), Follow(x, 0, EMPTY_SNAPSHOT, 0, 0, 0), Follow(x, 1, Snap(x), 5, 4, 4), ms)
    ensures AskAppend(2, Ask(x, 0, 2, 0, 3)) in ms
    ensures 2 in next && 3 in next && next[2] == 1 && next[3] == 6 && Get(matched, 2) == 0 && Get(matched, 3) == 5
  {
    var f0 := Follow(x, 0, EMPTY_SNAPSHOT, 0, 0, 0);
    run, ms, next, matched := Four(x);
    run := Accepts3(x, run, Snap(x), 4, 3, 5, 4, 11, 4, Lead(x, 5, 4, next, matched, 11), f0, ms);
    ms := ms + {TellAppend(3, 1, Ask(x, 4, 5, 4, 11), Ok(Ask(x, 4, 5, 4, 11)))};
    run := AckedLast(x, run, 5, 4, next, matched, 11, f0, Follow(x, 1, Snap(x), 5, 4, 4), ms, 4, 4, 11);
    next, matched := next[3 := 6], matched[3 := 5];
  }

  /** Node 1, which still takes node 2's log to be empty, tells it so. */
  lemma Told(x: Log) returns (run: seq<Event>, ms: set<Message>, next: map<Id, nat>, matched: map<Id, nat>)
    requires Shaped(x)
    ensures Reached(run, Lead(x, 5, 5, next, matched, 13), Follow(x, 0, EMPTY_SNAPSHOT, 0, 0, 0), Follow(x, 1, Snap(x), 5, 4, 4), ms)
    ensures AskAppend(2, Ask(x, 0, 2, 0, 3)) in ms && AskAppend(2, Ask(x, 0, 2, 5, 12)) in ms
    ensures 2 in next && next[2] == 1 && Get(matched, 2) == 0 && Get(matched, 3) == 5
  {
    run, ms, next, matched := Five(x);
    run := Beats(x, run, 5, 5, next, matched, 11, Follow(x, 0, EMPTY_SNAPSHOT, 0, 0, 0), Follow(x, 1, Snap(x), 5, 4, 4), ms);
    ms := ms + {AskAppend(2, Ask(x, 0, 2, 5, 12))};
  }

  /** Node 2 has applied four entries and believes two to be committed. */
  lemma FallenBack(x: Log) returns (run: seq<Event>, ms: set<Message>, next: map<Id, nat>, matched: map<Id, nat>)
    requires Shaped(x)
    ensures Reached(run, Lead(x, 5, 5, next, matched, 14), Follow(x, 1, EMPTY_SNAPSHOT, 4, 2, 4), Follow(x, 1, Snap(x), 5, 4, 4), ms)
  {
    var k3 := Follow(x, 1, Snap(x), 5, 4, 4);
    run, ms, next, matched := Told(x);
    run := Accepts2(x, run, 0, 0, 0, 2, 0, 3, 0, Lead(x, 5, 5, next, matched, 13), k3, ms);
    ms := ms + {TellAppend(2, 1, Ask(x, 0, 2, 0, 3), Ok(Ask(x, 0, 2, 0, 3)))};
    run := AckedPart(x, run, 5, 5, next, matched, 13, Follow(x, 1, EMPTY_SNAPSHOT, 2, 0, 0), k3, ms, 2, 0, 2, 0, 3, 5, 4);
    next, matched, ms := next[2 := 3], matched[2 := 2], ms + {AskAppend(2, Ask(x, 2, 4, 5, 14))};
    run := Accepts2(x, run, 1, 2, 0, 4, 5, 14, 4, Lead(x, 5, 5, next, matched, 14), k3, ms);
    ms := ms + {TellAppend(2, 1, Ask(x, 2, 4, 5, 14), Ok(Ask(x, 2, 4, 5, 14)))};
    run := Falls(x, run, 12, Lead(x, 5, 5, next, matched, 14), k3, ms);
  }

  /** Node 3 leads term 2, and node 2 has refused to continue at index 6. */
  lemma Refused(x: Log) returns (run: seq<Event>, ms: set<Message>, k1: Summary)
    requires Shaped(x)
    ensures Reached(run, k1, Follow(x, 2, EMPTY_SNAPSHOT, 4, 2, 4), Lead3(x, map[1 := 6, 2 := 6], 2), ms)
    ensures TellAppend(2, 3, Next(2), NO) in ms
  {
    var k2, k3 := Follow(x, 1, EMPTY_SNAPSHOT, 4, 2, 4), Follow(x, 1, Snap(x), 5, 4, 4);
    var next, matched;
    run, ms, next, matched := FallenBack(x);
    k1 := Lead(x, 5, 5, next, matched, 14);
    EndOf(x, k3);
    run := Stands(run, 3, V2, k1, k2, k3, ms);
    ms := ms + {AskVote(1, V2), AskVote(2, V2)};
    k3 := Follow(x, 2, Snap(x), 5, 4, 4).(role := Candidate, votes := {3});
    EndOf(x, k1);
    run := Votes(run, 1, V2, k1, k2, k3, ms);
    ms := ms + {TellVote(1, 3, V2, VoteReply(2, true))};
    k1 := k1.(role := Follower, term := 2, votes := {});
    run := WinsAgain(x, run, k1, k2, k3, ms);
    ms := ms + {AskAppend(1, Next(1)), AskAppend(2, Next(2))};
    run := Declines(x, run, k1, Lead3(x, map[1 := 6, 2 := 6], 2), ms);
    ms := ms + {TellAppend(2, 3, Next(2), NO)};
  }

  lemma EndOf(x: Log, k: Summary)
    requires Shaped(x) && (k.entries == x[3..5] || k.entries == x[..5])
    ensures Last(k) == (5, 1)
  {
  }

  /** Three refusals later the snapshot is on its way to node 2. */
  lemma Offered(x: Log) returns (run: seq<Event>, ms: set<Message>, k1: Summary, k3: Summary)
    requires Shaped(x)
    ensures AskInstall(2, SnapRequest(2, 3, Snap(x))) in ms
    ensures Reached(run, k1, Follow(x, 2, EMPTY_SNAPSHOT, 4, 2, 4), k3, ms)
  {
    var k2, seqNo := Follow(x, 2, EMPTY_SNAPSHOT, 4, 2, 4), 2;
    var next: map<Id, nat> := map[1 := 6, 2 := 6];
    run, ms, k1 := Refused(x);
    run, seqNo := Backs(x, run, next, seqNo, k1, k2, ms);
    next, ms := next[2 := 5], ms + {};
    run, seqNo := Backs(x, run, next, seqNo, k1, k2, ms);
    next, ms := next[2 := 4], ms + {};
    run, seqNo := Backs(x, run, next, seqNo, k1, k2, ms);
    next, ms := next[2 := 3], ms + {AskInstall(2, SnapRequest(2, 3, Snap(x)))};
    k3 := Lead3(x, next, seqNo);
  }

  /** It does happen: for any two commands that fill a message, there is a run of three nodes that ends
      with a rewinding install, after which a state machine is no longer its node's delivered prefix. */
  lemma RewindHappens(x: Log) returns (run: seq<Event>)
    requires Shaped(x)
    ensures run != [] && RewindsAt(At(M, run, |run| - 1), run[|run| - 1]) && !AlwaysIntact(M, run)
  {
    var before, ms, k1, k3 := Offered(x);
    Open(before, k1, Follow(x, 2, EMPTY_SNAPSHOT, 4, 2, 4), k3, ms);
    var ev := Event(2, Peers(2), Receive(AskInstall(2, SnapRequest(2, 3, Snap(x))), false));
    run := before + [ev];
    assert run[..|before|] == before;
    PeersFit(2);
    assert RewindsAt(At(M, run, |before|), run[|before|]);
    assert !Unrewound(M, run, |before|);
    GaplessIff(M, run);
  }

  /** So does this: a run of three nodes that ends with a node stopped by a late copy of an append. */
  lemma HaltHappens(x: Log) returns (run: seq<Event>)
    requires Shaped(x)
    ensures run != [] && 3 in Exec(M, run).nodes && !Exec(M, run).nodes[3].up
    ensures var s, ev := At(M, run, |run| - 1), run[|run| - 1];
            Enabled(s, ev) && !ev.action.Restart? && s.nodes[3].up
  {
    var before, ms, next, matched := Compacted(x);
    Open(before, Lead(x, 4, 3, next, matched, 9), Follow(x, 0, EMPTY_SNAPSHOT, 0, 0, 0), Follow(x, 1, Snap(x), 4, 3, 3), ms);
    var ev := Event(3, Peers(3), Receive(AskAppend(3, Ask(x, 0, 1, 0, 2)), false));
    run := before + [ev];
    assert run[..|before|] == before && run[..|run|] == run;
    PeersFit(3);
    HaltsIffRefusing(M, run, |before|);
  }

  /** Such a log exists: the runs above are runs. */
  lemma SomeLog() returns (x: Log)
    ensures Shaped(x)
  {
    var big: Bytes := seq(MAX_APPEND_BYTES, i => 0);
    x := [Entry(1, 1, KIND_NOOP, []), Entry(1, 2, KIND_NORMAL, big), Entry(1, 3, KIND_NORMAL, []),
          Entry(1, 4, KIND_NORMAL, big), Entry(1, 5, KIND_NORMAL, [])];
  }
}
