/** What each call on the Raft core computes, as functions from states to states.

    `State` holds the fields of the source's `core`; each function below is one of its methods. A Go
    run-time panic, or an error that stops the node's event loop, sets `halted`.

    Two fields have no counterpart in the source's memory: `Snapshot.covered` is the log prefix a
    snapshot stands for, and `Snapshot.image` is the state-machine image, written as the sequence of
    entries it reflects. No branch reads either.

    The cluster's member set is fixed here; membership changes are the subject of Membership.dfy. */
module RaftCore {
  import opened RaftLog

  // ---- messages ----

  datatype Snapshot = Snapshot(lastIndex: nat, lastTerm: nat, covered: Log, image: Log)

  datatype VoteRequest = VoteRequest(term: nat, candidate: Id, lastIndex: nat, lastTerm: nat, preVote: bool)
  datatype VoteReply = VoteReply(term: nat, granted: bool)
  datatype AppendRequest = AppendRequest(
    term: nat, leader: Id, prevIndex: nat, prevTerm: nat, entries: Log, leaderCommit: nat, seqNo: nat)
  datatype AppendReply = AppendReply(term: nat, seqNo: nat, success: bool, conflictTerm: nat, conflictIndex: nat)
  datatype SnapRequest = SnapRequest(term: nat, leader: Id, snap: Snapshot)
  datatype SnapReply = SnapReply(term: nat)

  /** A request addressed to one node, or the answer to a request together with that request. */
  datatype Message =
    | AskVote(to: Id, vote: VoteRequest)
    | AskAppend(to: Id, app: AppendRequest)
    | AskInstall(to: Id, ins: SnapRequest)
    | AskTimeoutNow(to: Id, term: nat, leader: Id)
    | TellVote(from: Id, to: Id, vote: VoteRequest, voteReply: VoteReply)
    | TellAppend(from: Id, to: Id, app: AppendRequest, appReply: AppendReply)
    | TellInstall(from: Id, to: Id, ins: SnapRequest, insReply: SnapReply)

  // ---- state ----

  datatype Role = Follower | Candidate | Leader

  datatype PendingRead = PendingRead(id: nat, index: nat, minSeq: nat, acks: set<Id>)
  datatype ReadOutcome = ReadOutcome(id: nat, index: nat, confirmed: bool)

  /** The member set, this node's id, and an order in which a map range hands out the peers. */
  datatype Config = Config(id: Id, members: set<Id>, peers: seq<Id>)

  datatype State = State(
    role: Role, term: nat, votedFor: Id, leaderId: Id,
    snap: Snapshot, entries: Log, commitIndex: nat, lastDelivered: nat,
    votes: set<Id>, preVotes: Option<set<Id>>,
    nextIndex: map<Id, nat>, matchIndex: map<Id, nat>, transferTarget: Id,
    appendSeq: nat, readCounter: nat, pendingReads: seq<PendingRead>,
    outbox: seq<Message>, committed: Log, readOutcomes: seq<ReadOutcome>, restore: Option<Log>,
    halted: bool)

  const MAX_APPEND_BYTES := 0x10_0000

  const EMPTY_SNAPSHOT := Snapshot(0, 0, [], [])

  /** A freshly constructed core: the durable term, vote, snapshot and log; everything else forgotten. */
  function NewCore(term: nat, votedFor: Id, snap: Snapshot, entries: Log): State
  {
    State(Follower, term, votedFor, NO_NODE, snap, entries, snap.lastIndex, snap.lastIndex,
          {}, None, map[], map[], NO_NODE, 0, 0, [], [], [], [], None, false)
  }

  /** d still plays the role of c in the same term, with the same log. */
  predicate Steady(c: State, d: State)
  {
    d.role == c.role && d.term == c.term && d.entries == c.entries
  }

  /** d has the log, the snapshot, the cursors and the delivery queues of c. */
  predicate SameLog(c: State, d: State)
  {
    && d.snap == c.snap && d.entries == c.entries && d.commitIndex == c.commitIndex
    && d.lastDelivered == c.lastDelivered && d.committed == c.committed && d.restore == c.restore && d.halted == c.halted
  }

  /** From c to d the delivery cursor moved exactly over the entries that were queued, and neither the
      snapshot nor a pending restore was touched. */
  predicate Spans(c: State, d: State)
  {
    d.lastDelivered - |d.committed| == c.lastDelivered - |c.committed| && d.snap == c.snap && d.restore == c.restore
  }

  /** The whole log, compacted part included. */
  function Full(s: State): Log
  {
    s.snap.covered + s.entries
  }

  function Get(m: map<Id, nat>, k: Id): nat
  {
    if k in m then m[k] else 0
  }

  function LastIndex(s: State): nat
  {
    if |s.entries| == 0 then s.snap.lastIndex else s.entries[|s.entries| - 1].index
  }

  function LastLogTerm(s: State): nat
  {
    if |s.entries| == 0 then s.snap.lastTerm else s.entries[|s.entries| - 1].term
  }

  function TermAt(s: State, index: nat): nat
  {
    if index == s.snap.lastIndex then s.snap.lastTerm
    else if index == 0 || |s.entries| == 0 then 0
    else
      var base := s.entries[0].index;
      if index < base || index > LastIndex(s) || index - base >= |s.entries| then 0
      else s.entries[index - base].term
  }

  predicate LogUpToDate(s: State, lastIndex: nat, lastTerm: nat)
  {
    if lastTerm != LastLogTerm(s) then lastTerm > LastLogTerm(s) else lastIndex >= LastIndex(s)
  }

  // ---- reads ----

  function Aborted(rs: seq<PendingRead>): seq<ReadOutcome>
  {
    seq(|rs|, i requires 0 <= i < |rs| => ReadOutcome(rs[i].id, 0, false))
  }

  function AbortPendingReads(s: State): State
  {
    s.(readOutcomes := s.readOutcomes + Aborted(s.pendingReads), pendingReads := [])
  }

  function Confirmed(rs: seq<PendingRead>, quorum: nat): seq<ReadOutcome>
  {
    if rs == [] then []
    else Confirmed(rs[..|rs| - 1], quorum) +
         (var r := rs[|rs| - 1]; if |r.acks| >= quorum then [ReadOutcome(r.id, r.index, true)] else [])
  }

  function Unconfirmed(rs: seq<PendingRead>, quorum: nat): seq<PendingRead>
  {
    if rs == [] then []
    else Unconfirmed(rs[..|rs| - 1], quorum) +
         (var r := rs[|rs| - 1]; if |r.acks| >= quorum then [] else [r])
  }

  function ConfirmReads(cfg: Config, s: State): State
  {
    var q := Majority(cfg.members);
    s.(readOutcomes := s.readOutcomes + Confirmed(s.pendingReads, q), pendingReads := Unconfirmed(s.pendingReads, q))
  }

  function Acked(rs: seq<PendingRead>, from: Id, seqNo: nat): seq<PendingRead>
  {
    seq(|rs|, i requires 0 <= i < |rs| =>
      if seqNo >= rs[i].minSeq then rs[i].(acks := rs[i].acks + {from}) else rs[i])
  }

  function NoteFreshAck(cfg: Config, s: State, from: Id, seqNo: nat): (r: State)
    ensures Spans(s, r) && Steady(s, r)
  {
    if exists i :: 0 <= i < |s.pendingReads| && seqNo >= s.pendingReads[i].minSeq then
      ConfirmReads(cfg, s.(pendingReads := Acked(s.pendingReads, from, seqNo)))
    else s
  }

  // ---- replication: the leader's side ----

  /** Where a batch that starts at position i ends: it takes at least one entry, and stops as soon as
      its payload fills room bytes. */
  function BatchEnd(es: Log, i: nat, room: int): (n: nat)
    requires i <= |es|
    ensures i <= n <= |es| && (i < |es| ==> i < n)
    decreases |es| - i
  {
    if i == |es| then i
    else if |es[i].command| >= room then i + 1
    else BatchEnd(es, i + 1, room - |es[i].command|)
  }

  function Batch(s: State, next: nat): Log
    requires s.snap.lastIndex < next
  {
    var k := next - s.snap.lastIndex - 1;
    if k < |s.entries| then s.entries[k..BatchEnd(s.entries, k, MAX_APPEND_BYTES)] else []
  }

  function AppendFor(cfg: Config, s: State, next: nat): AppendRequest
    requires s.snap.lastIndex < next
  {
    AppendRequest(s.term, cfg.id, next - 1, TermAt(s, next - 1), Batch(s, next), s.commitIndex, s.appendSeq + 1)
  }

  function SendAppend(cfg: Config, s: State, peer: Id): (r: State)
    ensures r == s.(appendSeq := r.appendSeq, outbox := r.outbox)
  {
    var next := if Get(s.nextIndex, peer) == 0 then 1 else s.nextIndex[peer];
    if next <= s.snap.lastIndex then
      s.(outbox := s.outbox + [AskInstall(peer, SnapRequest(s.term, cfg.id, s.snap))])
    else
      s.(appendSeq := s.appendSeq + 1, outbox := s.outbox + [AskAppend(peer, AppendFor(cfg, s, next))])
  }

  function BroadcastTo(cfg: Config, s: State, peers: seq<Id>): (r: State)
    ensures r == s.(appendSeq := r.appendSeq, outbox := r.outbox)
  {
    if peers == [] then s
    else SendAppend(cfg, BroadcastTo(cfg, s, peers[..|peers| - 1]), peers[|peers| - 1])
  }

  function BroadcastAppends(cfg: Config, s: State): State
  {
    BroadcastTo(cfg, s, cfg.peers)
  }

  /** The members known to store the entry of index n: the leader itself and the peers matched that far. */
  function Holders(cfg: Config, s: State, n: nat): set<Id>
  {
    set p | p in cfg.members && (p == cfg.id || Get(s.matchIndex, p) >= n)
  }

  /** Scanning down from n, the first current-term index a majority stores; the old commit index if none. */
  function ScanCommit(cfg: Config, s: State, n: nat): (r: nat)
    ensures r == s.commitIndex || s.commitIndex < r <= n
  {
    if n <= s.commitIndex || TermAt(s, n) != s.term then s.commitIndex
    else if |Holders(cfg, s, n)| >= Majority(cfg.members) then n
    else ScanCommit(cfg, s, n - 1)
  }

  function DeliverCommitted(s: State): (r: State)
    ensures Spans(s, r) && Steady(s, r)
  {
    if |s.entries| == 0 || s.commitIndex <= s.lastDelivered then s
    else
      var base := s.entries[0].index;
      if s.lastDelivered + 1 < base || s.commitIndex - base >= |s.entries| then s.(halted := true)
      else
        s.(committed := s.committed + s.entries[s.lastDelivered + 1 - base..s.commitIndex + 1 - base],
           lastDelivered := s.commitIndex)
  }

  function MaybeAdvanceCommit(cfg: Config, s: State): (r: State)
    ensures Spans(s, r) && Steady(s, r)
  {
    var n := ScanCommit(cfg, s, LastIndex(s));
    if n == s.commitIndex then s else DeliverCommitted(s.(commitIndex := n))
  }

  datatype ProposeResult = Accepted(index: nat, term: nat) | NotLeader(hint: Id)

  function Propose(cfg: Config, s: State, command: Bytes): (r: (State, ProposeResult))
    ensures Spans(s, r.0)
  {
    if !s.role.Leader? then (s, NotLeader(s.leaderId))
    else if s.transferTarget != NO_NODE then (s, NotLeader(s.transferTarget))
    else
      var e := Entry(s.term, LastIndex(s) + 1, KIND_NORMAL, command);
      (MaybeAdvanceCommit(cfg, BroadcastAppends(cfg, s.(entries := s.entries + [e]))), Accepted(e.index, e.term))
  }

  datatype ReadResult = ReadRegistered(id: nat) | ReadNotLeader(hint: Id) | ReadNotReady

  function RequestRead(cfg: Config, s: State): (r: (State, ReadResult))
    ensures Spans(s, r.0)
  {
    if !s.role.Leader? then (s, ReadNotLeader(s.leaderId))
    else if TermAt(s, s.commitIndex) != s.term then (s, ReadNotReady)
    else
      var r := PendingRead(s.readCounter + 1, s.commitIndex, s.appendSeq + 1, {cfg.id});
      var s1 := ConfirmReads(cfg, s.(readCounter := s.readCounter + 1, pendingReads := s.pendingReads + [r]));
      (if s1.pendingReads == [] then s1 else BroadcastAppends(cfg, s1), ReadRegistered(r.id))
  }

  /** The last index at or below i whose entry has the given term, going back no further than the
      terms allow; 0 if there is none. */
  function LastIndexOfTerm(s: State, term: nat, i: nat): nat
  {
    if i == 0 then 0
    else if TermAt(s, i) == term then i
    else if TermAt(s, i) < term || TermAt(s, i) == 0 then 0
    else LastIndexOfTerm(s, term, i - 1)
  }

  /** Where to resume after a rejection. */
  function Backoff(s: State, from: Id, reply: AppendReply): nat
  {
    var last := if reply.conflictTerm != 0 then LastIndexOfTerm(s, reply.conflictTerm, LastIndex(s)) else 0;
    var hint := if last != 0 then last + 1 else reply.conflictIndex;
    var next := if hint == 0 then 1 else hint;
    if next < Get(s.nextIndex, from) then next
    else if Get(s.nextIndex, from) <= 1 then 1 else Get(s.nextIndex, from) - 1
  }

  function SendTimeoutNow(cfg: Config, s: State, to: Id): State
  {
    s.(outbox := s.outbox + [AskTimeoutNow(to, s.term, cfg.id)])
  }

  function Advance(cfg: Config, s: State, from: Id, m: nat): (r: State)
    ensures Spans(s, r) && Steady(s, r)
  {
    if m > Get(s.matchIndex, from) then
      MaybeAdvanceCommit(cfg, s.(matchIndex := s.matchIndex[from := m], nextIndex := s.nextIndex[from := m + 1]))
    else s
  }

  /** Fire a pending leadership transfer once its target has the whole log, and keep feeding a backlog. */
  function FollowUp(cfg: Config, s: State, from: Id): (r: State)
    ensures Spans(s, r) && Steady(s, r)
  {
    var s1 := if from == s.transferTarget && Get(s.matchIndex, from) == LastIndex(s)
              then SendTimeoutNow(cfg, s, from) else s;
    if Get(s1.nextIndex, from) <= LastIndex(s1) then SendAppend(cfg, s1, from) else s1
  }

  function HandleSuccess(cfg: Config, s: State, from: Id, seqNo: nat, m: nat): (r: State)
    ensures Spans(s, r) && Steady(s, r)
  {
    FollowUp(cfg, Advance(cfg, NoteFreshAck(cfg, s, from, seqNo), from, m), from)
  }

  function HandleRejection(cfg: Config, s: State, from: Id, reply: AppendReply): (r: State)
    ensures Spans(s, r) && Steady(s, r)
  {
    SendAppend(cfg, s.(nextIndex := s.nextIndex[from := Backoff(s, from, reply)]), from)
  }

  /** An answer to a request of the current term is never taken for an outdated one. */
  function HandleAppendReply(cfg: Config, s: State, from: Id, req: AppendRequest, reply: AppendReply): (r: State)
    ensures Spans(s, r)
    ensures s.role.Leader? && reply.term <= s.term == req.term && reply.success ==>
              r == HandleSuccess(cfg, s, from, reply.seqNo, req.prevIndex + |req.entries|)
    ensures s.role.Leader? && reply.term <= s.term == req.term && !reply.success ==>
              r == HandleRejection(cfg, s, from, reply)
  {
    if reply.term > s.term then StepDown(s, reply.term)
    else if !s.role.Leader? || req.term != s.term then s
    else if reply.success then HandleSuccess(cfg, s, from, reply.seqNo, req.prevIndex + |req.entries|)
    else HandleRejection(cfg, s, from, reply)
  }

  function NoteInstalled(s: State, from: Id, idx: nat): State
  {
    if idx > Get(s.matchIndex, from)
    then s.(matchIndex := s.matchIndex[from := idx], nextIndex := s.nextIndex[from := idx + 1]) else s
  }

  function HandleSnapReply(cfg: Config, s: State, from: Id, req: SnapRequest, reply: SnapReply): (r: State)
    ensures Spans(s, r)
  {
    if reply.term > s.term then StepDown(s, reply.term)
    else if !s.role.Leader? || req.term != s.term then s
    else
      var s1 := NoteInstalled(s, from, req.snap.lastIndex);
      if Get(s1.nextIndex, from) <= LastIndex(s1) then SendAppend(cfg, s1, from) else s1
  }

  // ---- elections ----

  function StepDown(s: State, term: nat): (r: State)
    ensures SameLog(s, r)
  {
    AbortPendingReads(s.(role := Follower, term := term, votedFor := NO_NODE, leaderId := NO_NODE,
                         votes := {}, preVotes := None, transferTarget := NO_NODE))
  }

  function AskPeers(peers: seq<Id>, req: VoteRequest): seq<Message>
  {
    seq(|peers|, i requires 0 <= i < |peers| => AskVote(peers[i], req))
  }

  function BecomeLeader(cfg: Config, s: State): State
  {
    var next := map p | p in cfg.peers :: LastIndex(s) + 1;
    var noop := Entry(s.term, LastIndex(s) + 1, KIND_NOOP, []);
    s.(role := Leader, leaderId := cfg.id, preVotes := None, transferTarget := NO_NODE,
       nextIndex := next, matchIndex := map[], entries := s.entries + [noop])
  }

  function MaybeWinElection(cfg: Config, s: State): (r: State)
    ensures Spans(s, r)
  {
    if !s.role.Candidate? || |s.votes| < Majority(cfg.members) then s
    else MaybeAdvanceCommit(cfg, BroadcastAppends(cfg, BecomeLeader(cfg, s)))
  }

  /** A new candidacy, before any vote is counted. */
  function Stand(cfg: Config, s: State): State
  {
    var req := VoteRequest(s.term + 1, cfg.id, LastIndex(s), LastLogTerm(s), false);
    s.(role := Candidate, term := s.term + 1, votedFor := cfg.id, leaderId := NO_NODE, votes := {cfg.id},
       outbox := s.outbox + AskPeers(cfg.peers, req))
  }

  function StartCampaign(cfg: Config, s: State): (r: State)
    ensures Spans(s, r)
  {
    MaybeWinElection(cfg, Stand(cfg, s))
  }

  function MaybeWinPreVote(cfg: Config, s: State): (r: State)
    ensures Spans(s, r)
  {
    if s.preVotes.None? || |s.preVotes.value| < Majority(cfg.members) then s
    else StartCampaign(cfg, s.(preVotes := None))
  }

  /** A pre-vote round opened, before any answer is counted. */
  function Probe(cfg: Config, s: State): State
  {
    var req := VoteRequest(s.term + 1, cfg.id, LastIndex(s), LastLogTerm(s), true);
    s.(preVotes := Some({cfg.id}), outbox := s.outbox + AskPeers(cfg.peers, req))
  }

  function StartPreCampaign(cfg: Config, s: State): (r: State)
    ensures Spans(s, r)
  {
    MaybeWinPreVote(cfg, Probe(cfg, s))
  }

  /** An expired election timeout; `direct` is the configuration switch that disables pre-vote. */
  function ElectionTimeout(cfg: Config, s: State, direct: bool): (r: State)
    ensures Spans(s, r)
  {
    if s.role.Leader? then s
    else if direct then StartCampaign(cfg, s)
    else StartPreCampaign(cfg, s)
  }

  function Heartbeat(cfg: Config, s: State): State
  {
    if s.role.Leader? then BroadcastAppends(cfg, s) else s
  }

  /** `recent` says that the node heard from a leader within the minimum election timeout. */
  function HandlePreVote(s: State, req: VoteRequest, recent: bool): VoteReply
  {
    if s.leaderId != NO_NODE && recent then VoteReply(s.term, false)
    else VoteReply(s.term, req.term > s.term && LogUpToDate(s, req.lastIndex, req.lastTerm))
  }

  function HandleRequestVote(s: State, req: VoteRequest, recent: bool): (r: (State, VoteReply))
    ensures Spans(s, r.0)
  {
    if req.preVote then (s, HandlePreVote(s, req, recent))
    else
      var s1 := if req.term > s.term then StepDown(s, req.term) else s;
      if req.term < s1.term then (s1, VoteReply(s1.term, false))
      else if (s1.votedFor == NO_NODE || s1.votedFor == req.candidate)
              && LogUpToDate(s1, req.lastIndex, req.lastTerm)
      then (s1.(votedFor := req.candidate), VoteReply(s1.term, true))
      else (s1, VoteReply(s1.term, false))
  }

  function HandleVoteReply(cfg: Config, s: State, from: Id, ask: VoteRequest, reply: VoteReply): (r: State)
    ensures Spans(s, r)
  {
    if reply.term > s.term then StepDown(s, reply.term)
    else if !s.role.Candidate? || ask.term != s.term then s
    else if reply.granted then MaybeWinElection(cfg, s.(votes := s.votes + {from}))
    else s
  }

  function HandlePreVoteReply(cfg: Config, s: State, from: Id, ask: VoteRequest, reply: VoteReply): (r: State)
    ensures Spans(s, r)
  {
    if reply.term > s.term then StepDown(s, reply.term)
    else if !s.role.Follower? || ask.term != s.term + 1 || s.preVotes.None? then s
    else if reply.granted then MaybeWinPreVote(cfg, s.(preVotes := Some(s.preVotes.value + {from})))
    else s
  }

  datatype TransferResult = Started | AlreadyLeading | NotAMember | TransferNotLeader(hint: Id)

  function TransferLeadership(cfg: Config, s: State, to: Id): (r: (State, TransferResult))
    ensures Spans(s, r.0)
  {
    if !s.role.Leader? then (s, TransferNotLeader(s.leaderId))
    else if to == cfg.id then (s, AlreadyLeading)
    else if to !in cfg.members then (s, NotAMember)
    else
      var s1 := s.(transferTarget := to);
      (if Get(s1.matchIndex, to) == LastIndex(s1) then SendTimeoutNow(cfg, s1, to) else SendAppend(cfg, s1, to), Started)
  }

  /** A leadership transfer that did not complete within an election timeout is given up. */
  function ExpireTransfer(s: State): State
  {
    if s.role.Leader? then s.(transferTarget := NO_NODE) else s
  }

  function HandleTimeoutNow(cfg: Config, s: State, term: nat): (r: State)
    ensures Spans(s, r)
  {
    var s1 := if term > s.term then StepDown(s, term) else s;
    if term < s1.term then s1 else StartCampaign(cfg, s1)
  }

  // ---- replication: the follower's side ----

  /** Adopt a newer term, and recognize the sender of a current-term request as the leader. */
  function Recognize(s: State, term: nat, leader: Id): (r: State)
    ensures SameLog(s, r)
  {
    var s1 := if term > s.term then StepDown(s, term) else s;
    if term < s1.term then s1
    else
      var s2 := if s1.role.Follower? then s1 else s1.(role := Follower, votes := {});
      s2.(leaderId := leader)
  }

  function FirstIndexOfTerm(s: State, term: nat, from: nat): nat
  {
    if from > 1 && TermAt(s, from - 1) == term then FirstIndexOfTerm(s, term, from - 1) else from
  }

  predicate IsNew(s: State, e: Entry)
  {
    e.index > LastIndex(s) || TermAt(s, e.index) != e.term
  }

  /** The position, from i on, of the first entry of es that s does not hold already; |es| if it holds
      them all. */
  function FirstNew(s: State, es: Log, i: nat): (j: nat)
    requires i <= |es|
    ensures i <= j <= |es|
    decreases |es| - i
  {
    if i == |es| || IsNew(s, es[i]) then i else FirstNew(s, es, i + 1)
  }

  function TruncateAndAppend(s: State, es: Log): State
    requires es != []
  {
    var first := es[0].index;
    if first <= s.commitIndex then s.(halted := true)
    else if |s.entries| > 0 && first <= LastIndex(s) then
      var base := s.entries[0].index;
      if first < base || first - base > |s.entries| then s.(halted := true)
      else s.(entries := s.entries[..first - base] + es)
    else s.(entries := s.entries + es)
  }

  /** Store what is new in a request that passed the log-matching check. */
  function StoreNew(s: State, es: Log): (r: State)
    ensures Spans(s, r)
  {
    var i := FirstNew(s, es, 0);
    if i == |es| then s else TruncateAndAppend(s, es[i..])
  }

  function AdvanceTo(s: State, leaderCommit: nat, lastNew: nat): (r: State)
    ensures Spans(s, r)
  {
    if leaderCommit > s.commitIndex then
      DeliverCommitted(s.(commitIndex := if leaderCommit < lastNew then leaderCommit else lastNew))
    else s
  }

  /** The answer to a request that fails the log-matching check, with the conflict hints. */
  function Conflict(s: State, req: AppendRequest): Option<AppendReply>
  {
    if req.prevIndex == 0 then None
    else if req.prevIndex > LastIndex(s) then
      Some(AppendReply(s.term, req.seqNo, false, 0, LastIndex(s) + 1))
    else
      var t := TermAt(s, req.prevIndex);
      if t == req.prevTerm then None
      else Some(AppendReply(s.term, req.seqNo, false, t, FirstIndexOfTerm(s, t, req.prevIndex)))
  }

  /** What a follower does with a request of its current leader. */
  function Replicate(s: State, req: AppendRequest): (r: (State, AppendReply))
    ensures Spans(s, r.0)
  {
    match Conflict(s, req)
    case Some(reply) => (s, reply)
    case None =>
      var s1 := StoreNew(s, req.entries);
      var reply := AppendReply(s.term, req.seqNo, true, 0, 0);
      if s1.halted then (s1, reply)
      else (AdvanceTo(s1, req.leaderCommit, req.prevIndex + |req.entries|), reply)
  }

  function HandleAppendEntries(s: State, req: AppendRequest): (r: (State, AppendReply))
    ensures Spans(s, r.0)
  {
    var s1 := Recognize(s, req.term, req.leader);
    if req.term < s1.term then (s1, AppendReply(s1.term, req.seqNo, false, 0, 0)) else Replicate(s1, req)
  }

  // ---- snapshots ----

  function Compact(s: State, applied: nat, image: Log): State
  {
    if applied <= s.snap.lastIndex || applied > s.lastDelivered then s
    else
      var k := applied - s.snap.lastIndex;
      if k > |s.entries| then s.(halted := true)
      else s.(snap := Snapshot(applied, TermAt(s, applied), s.snap.covered + s.entries[..k], image),
              entries := s.entries[k..])
  }

  /** The log continues coherently past the snapshot. */
  predicate KeepsSuffix(s: State, snap: Snapshot)
  {
    snap.lastIndex <= LastIndex(s) && TermAt(s, snap.lastIndex) == snap.lastTerm
  }

  /** A snapshot that covers nothing a node does not already know to be committed or compacted. */
  predicate StaleSnapshot(s: State, snap: Snapshot)
  {
    snap.lastIndex <= s.snap.lastIndex || snap.lastIndex <= s.commitIndex
  }

  /** The source keeps the image as a byte slice whose nil value means that nothing is to be restored, so an
      image of no bytes would not be restored; here every installed snapshot is. */
  function Install(s: State, snap: Snapshot): State
  {
    if StaleSnapshot(s, snap) then s
    else
      s.(snap := snap,
         entries := if KeepsSuffix(s, snap) && snap.lastIndex - s.snap.lastIndex <= |s.entries|
                    then s.entries[snap.lastIndex - s.snap.lastIndex..] else [],
         commitIndex := snap.lastIndex,
         lastDelivered := if s.lastDelivered < snap.lastIndex then snap.lastIndex else s.lastDelivered,
         restore := Some(snap.image))
  }

  function HandleInstallSnapshot(s: State, req: SnapRequest): (r: (State, SnapReply))
    ensures r.0.committed == s.committed
  {
    var s1 := Recognize(s, req.term, req.leader);
    (if req.term < s1.term then s1 else Install(s1, req.snap), SnapReply(s1.term))
  }
}
