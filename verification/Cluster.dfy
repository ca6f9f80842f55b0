/** A cluster of Raft nodes over a network that may lose, duplicate, delay and reorder messages.

    A run is a sequence of events; Exec gives the state after any run. Messages once sent stay in
    `net` for ever, so any of them may be received any number of times, in any order, or never. Nodes
    crash and restart, keeping only what they had made durable, and a crash may fall in the middle of
    a log write. All remaining nondeterminism (timeouts, the order of a map range, when to snapshot)
    is part of the event. An event that cannot happen in a state leaves it unchanged. */
module Cluster {
  import opened RaftLog
  import opened RaftCore

  // ---- one node: the core plus the event loop's own bookkeeping ----

  /** A proposal waiting for its index to be applied; `client` stands for the reply channel. */
  datatype Waiter = Waiter(term: nat, client: nat, command: Bytes)
  datatype AppliedWaiter = AppliedWaiter(index: nat, client: nat)

  /** `sm` is the state machine, written as the sequence of entries it reflects. */
  datatype Node = Node(
    up: bool, core: State, applied: nat, sm: Log,
    waiters: map<nat, Waiter>, readWaiters: map<nat, nat>, appliedWaiters: seq<AppliedWaiter>)

  datatype Output =
    | Applied(node: Id, entry: Entry)
    | ProposeOk(client: nat, command: Bytes, entry: Entry)
    | ProposeLost(client: nat, index: nat, term: nat)
    | ReadOk(client: nat, node: Id, index: nat)
    | ReadLost(client: nat)

  /** A node together with what it has told its clients in the current step. */
  datatype Work = Work(node: Node, out: seq<Output>)

  function Released(id: Id, ws: seq<AppliedWaiter>, applied: nat): seq<Output>
  {
    if ws == [] then []
    else Released(id, ws[..|ws| - 1], applied) +
         (var w := ws[|ws| - 1]; if applied >= w.index then [ReadOk(w.client, id, w.index)] else [])
  }

  function StillWaiting(ws: seq<AppliedWaiter>, applied: nat): seq<AppliedWaiter>
  {
    if ws == [] then []
    else StillWaiting(ws[..|ws| - 1], applied) + (var w := ws[|ws| - 1]; if applied >= w.index then [] else [w])
  }

  function FireAppliedWaiters(id: Id, w: Work): Work
  {
    var n := w.node;
    Work(n.(appliedWaiters := StillWaiting(n.appliedWaiters, n.applied)),
         w.out + Released(id, n.appliedWaiters, n.applied))
  }

  function ApplyEntry(id: Id, w: Work, e: Entry): Work
  {
    var n := w.node;
    var w1 := FireAppliedWaiters(id, Work(n.(sm := n.sm + [e], applied := e.index), w.out + [Applied(id, e)]));
    if e.index in n.waiters then
      var p := n.waiters[e.index];
      Work(w1.node.(waiters := n.waiters - {e.index}),
           w1.out + [if p.term == e.term then ProposeOk(p.client, p.command, e) else ProposeLost(p.client, e.index, p.term)])
    else w1
  }

  function ApplyAll(id: Id, w: Work, es: Log): Work
  {
    if es == [] then w else ApplyEntry(id, ApplyAll(id, w, es[..|es| - 1]), es[|es| - 1])
  }

  function ResolveRead(id: Id, w: Work, r: ReadOutcome): Work
  {
    var n := w.node;
    if r.id !in n.readWaiters then w
    else
      var client, n1 := n.readWaiters[r.id], n.(readWaiters := n.readWaiters - {r.id});
      if !r.confirmed then Work(n1, w.out + [ReadLost(client)])
      else if n.applied >= r.index then Work(n1, w.out + [ReadOk(client, id, r.index)])
      else Work(n1.(appliedWaiters := n.appliedWaiters + [AppliedWaiter(r.index, client)]), w.out)
  }

  function ResolveAll(id: Id, w: Work, rs: seq<ReadOutcome>): Work
  {
    if rs == [] then w else ResolveRead(id, ResolveAll(id, w, rs[..|rs| - 1]), rs[|rs| - 1])
  }

  function Restore(id: Id, n: Node): Work
  {
    match n.core.restore
    case None => Work(n, [])
    case Some(image) => FireAppliedWaiters(id, Work(n.(sm := image, applied := n.core.snap.lastIndex), []))
  }

  /** Drain what the core produced, in order: restore, apply, resolve reads. Sends are taken by the caller. */
  function AfterStep(id: Id, n: Node): Work
  {
    var w := ResolveAll(id, ApplyAll(id, Restore(id, n), n.core.committed), n.core.readOutcomes);
    w.(node := w.node.(core := n.core.(outbox := [], committed := [], readOutcomes := [], restore := None)))
  }

  /** The process starts from its disk: term and vote, snapshot, log. */
  function Boot(term: nat, votedFor: Id, snap: Snapshot, entries: Log): Node
  {
    Node(true, NewCore(term, votedFor, snap, entries), snap.lastIndex, snap.image, map[], map[], [])
  }

  function Reboot(c: State): Node
  {
    Boot(c.term, c.votedFor, c.snap, c.entries)
  }

  // ---- events ----

  /** How far a handler had got on disk when the process died. */
  datatype Crash =
    | Idle
    | TermSaved(term: nat)
    | CandidacySaved
    | MidAppend(req: AppendRequest, written: nat)

  datatype Action =
    | Timeout(direct: bool)
    | Beat
    | Receive(msg: Message, recent: bool)
    | ClientPropose(client: nat, command: Bytes)
    | ClientRead(client: nat)
    | Transfer(to: Id)
    | TransferExpires
    | TakeSnapshot
    | Restart(crash: Crash)

  datatype Event = Event(node: Id, peers: seq<Id>, action: Action)

  datatype System = System(members: set<Id>, nodes: map<Id, Node>, net: set<Message>, out: seq<Output>)

  /** Handle one message: the new core and the answer, if the request has one. */
  function Handle(cfg: Config, s: State, m: Message, recent: bool): (State, seq<Message>)
  {
    match m
    case AskVote(_, req) =>
      var (s1, reply) := HandleRequestVote(s, req, recent);
      (s1, [TellVote(cfg.id, req.candidate, req, reply)])
    case AskAppend(_, req) =>
      var (s1, reply) := HandleAppendEntries(s, req);
      (s1, [TellAppend(cfg.id, req.leader, req, reply)])
    case AskInstall(_, req) =>
      var (s1, reply) := HandleInstallSnapshot(s, req);
      (s1, [TellInstall(cfg.id, req.leader, req, reply)])
    case AskTimeoutNow(_, term, _) => (HandleTimeoutNow(cfg, s, term), [])
    case TellVote(from, _, ask, reply) =>
      (if ask.preVote then HandlePreVoteReply(cfg, s, from, ask, reply) else HandleVoteReply(cfg, s, from, ask, reply), [])
    case TellAppend(from, _, req, reply) => (HandleAppendReply(cfg, s, from, req, reply), [])
    case TellInstall(from, _, req, reply) => (HandleSnapReply(cfg, s, from, req, reply), [])
  }

  /** Run one event-loop message on a running node: the node before its queues are drained, and the answer. */
  function Dispatch(cfg: Config, n: Node, a: Action): (Node, seq<Message>)
  {
    match a
    case Timeout(direct) => (n.(core := ElectionTimeout(cfg, n.core, direct)), [])
    case Beat => (n.(core := Heartbeat(cfg, n.core)), [])
    case Receive(m, recent) =>
      var (s, reply) := Handle(cfg, n.core, m, recent);
      (n.(core := s), reply)
    case ClientPropose(client, command) =>
      var (s, r) := Propose(cfg, n.core, command);
      (n.(core := s,
          waiters := if r.Accepted? then n.waiters[r.index := Waiter(r.term, client, command)] else n.waiters), [])
    case ClientRead(client) =>
      var (s, r) := RequestRead(cfg, n.core);
      (n.(core := s, readWaiters := if r.ReadRegistered? then n.readWaiters[r.id := client] else n.readWaiters), [])
    case Transfer(to) => (n.(core := TransferLeadership(cfg, n.core, to).0), [])
    case TransferExpires => (n.(core := ExpireTransfer(n.core)), [])
    case TakeSnapshot => (n.(core := Compact(n.core, n.applied, n.sm)), [])
    case Restart(_) => (n, [])
  }

  /** The durable state a crash leaves behind. */
  function OnDisk(cfg: Config, n: Node, crash: Crash): State
  {
    if !n.up then n.core
    else
      match crash
      case Idle => n.core
      case TermSaved(term) => if term > n.core.term then StepDown(n.core, term) else n.core
      case CandidacySaved => if n.core.role.Leader? then n.core else Stand(cfg, n.core)
      case MidAppend(req, written) =>
        var s := Recognize(n.core, req.term, req.leader);
        if req.term < s.term || Conflict(s, req).Some? || written > |req.entries| then s
        else StoreNew(s, req.entries[..written])
  }

  predicate ValidPeers(members: set<Id>, id: Id, peers: seq<Id>)
  {
    && (forall p :: p in peers ==> p in members && p != id)
    && (forall p :: p in members && p != id ==> p in peers)
    && (forall i, j :: 0 <= i < j < |peers| ==> peers[i] != peers[j])
  }

  predicate Enabled(s: System, ev: Event)
  {
    && ev.node in s.members && ev.node in s.nodes
    && ValidPeers(s.members, ev.node, ev.peers)
    && (ev.action.Restart? || s.nodes[ev.node].up)
    && (ev.action.Receive? ==> ev.action.msg in s.net && ev.action.msg.to == ev.node)
    && (ev.action.Restart? && ev.action.crash.MidAppend? ==> AskAppend(ev.node, ev.action.crash.req) in s.net)
  }

  function AsSet(ms: seq<Message>): set<Message>
  {
    set m | m in ms
  }

  /** The cluster with node v replaced; nothing sent or said. */
  function Replace(s: System, v: Id, n: Node): System
  {
    s.(nodes := s.nodes[v := n])
  }

  /** The cluster once node v has drained its queues and sent its answer and its outbox. */
  function Finish(s: System, v: Id, n: Node, reply: seq<Message>): System
  {
    var w := AfterStep(v, n);
    s.(nodes := s.nodes[v := w.node], net := s.net + AsSet(reply) + AsSet(n.core.outbox), out := s.out + w.out)
  }

  function Step(s: System, ev: Event): System
  {
    if !Enabled(s, ev) then s
    else
      var cfg, n := Config(ev.node, s.members, ev.peers), s.nodes[ev.node];
      if ev.action.Restart? then Replace(s, ev.node, Reboot(OnDisk(cfg, n, ev.action.crash)))
      else
        var (n1, reply) := Dispatch(cfg, n, ev.action);
        if n1.core.halted then Replace(s, ev.node, n1.(up := false)) else Finish(s, ev.node, n1, reply)
  }

  function Start(members: set<Id>): System
  {
    System(members, map v | v in members :: Boot(0, NO_NODE, EMPTY_SNAPSHOT, []), {}, [])
  }

  /** The state a run reaches. */
  function Exec(members: set<Id>, run: seq<Event>): System
  {
    if run == [] then Start(members) else Step(Exec(members, run[..|run| - 1]), run[|run| - 1])
  }
}
