/** Every run of the cluster leaves a trail.

    Sim relates a cluster state to a trail; StepSim extends the trail over one event, and Trace over a
    whole run. The safety theorems read their conclusions off the trail's book. */
module ClusterSim {
  import opened RaftLog
  import opened RaftCore
  import opened Cluster
  import opened Ledger
  import opened Trail
  import opened CoreSim
  import opened VoteSim
  import opened LeaderSim
  import opened FollowerSim
  import opened SnapshotSim

  // ---- the event loop's bookkeeping ----

  /** A waiting proposal sits at its index in the leader log of its term. */
  ghost predicate WaiterOK(g: Book, i: nat, w: Waiter)
  {
    && w.term in g.lead && 0 < i <= |g.lead[w.term]|
    && g.lead[w.term][i - 1] == Entry(w.term, i, KIND_NORMAL, w.command)
  }

  ghost predicate GoodReg(h: Trail, client: nat, index: nat, r: Reg)
  {
    r in h.regs && r.client == client && r.index == index && forall c :: c in r.commits ==> c.len <= index
  }

  /** A read of this client was registered at an index that covers everything committed by then. */
  ghost predicate ReadGood(h: Trail, client: nat, index: nat)
  {
    exists r :: GoodReg(h, client, index, r)
  }

  ghost predicate OutputOK(h: Trail, o: Output)
  {
    match o
    case Applied(_, e) => Settled(h.book, e)
    case ProposeOk(_, command, e) => Settled(h.book, e) && e.kind == KIND_NORMAL && e.command == command
    case ProposeLost(_, index, term) => exists e :: Settled(h.book, e) && e.index == index && e.term != term
    case ReadOk(client, _, index) => ReadGood(h, client, index)
    case ReadLost(_) => true
  }

  ghost predicate ReadersOK(h: Trail, v: Id, term: nat, readWaiters: map<nat, nat>)
  {
    forall r :: r in h.regs && r.term == term && r.id in readWaiters && r.term in h.book.won && h.book.won[r.term].leader == v
                ==> readWaiters[r.id] == r.client
  }

  ghost predicate LoopOK(h: Trail, v: Id, n: Node)
  {
    && (forall i :: i in n.waiters ==> WaiterOK(h.book, i, n.waiters[i]))
    && ReadersOK(h, v, n.core.term, n.readWaiters)
    && (forall w :: w in n.appliedWaiters ==> ReadGood(h, w.client, w.index))
  }

  ghost predicate NodeOK(h: Trail, v: Id, n: Node)
  {
    DiskOK(h, v, n.core) && (n.up ==> CoreOK(h, v, n.core) && Quiet(n.core) && LoopOK(h, v, n))
  }

  ghost predicate NodesFit(h: Trail, nodes: map<Id, Node>)
  {
    forall v :: v in nodes ==> NodeOK(h, v, nodes[v])
  }

  ghost predicate NetFits(h: Trail, net: set<Message>)
  {
    forall m :: m in net ==> MessageOK(h, m)
  }

  ghost predicate OutFits(h: Trail, out: seq<Output>)
  {
    forall o :: o in out ==> OutputOK(h, o)
  }

  datatype SystemPart = NodesPart | NetPart | OutPart

  ghost predicate SystemHas(part: SystemPart, s: System, h: Trail)
  {
    match part
    case NodesPart => NodesFit(h, s.nodes)
    case NetPart => NetFits(h, s.net)
    case OutPart => OutFits(h, s.out)
  }

  ghost predicate Sim(s: System, h: Trail)
  {
    && TrailInv(h) && h.book.members == s.members && s.nodes.Keys == s.members
    && forall part {:trigger SystemHas(part, s, h)} :: SystemHas(part, s, h)
  }

  lemma SimOpen(s: System, h: Trail)
    requires Sim(s, h)
    ensures NodesFit(h, s.nodes) && NetFits(h, s.net) && OutFits(h, s.out)
  {
    assert SystemHas(NodesPart, s, h) && SystemHas(NetPart, s, h) && SystemHas(OutPart, s, h);
  }

  lemma SimClose(s: System, h: Trail)
    requires TrailInv(h) && h.book.members == s.members && s.nodes.Keys == s.members
    requires NodesFit(h, s.nodes) && NetFits(h, s.net) && OutFits(h, s.out)
    ensures Sim(s, h)
  {
  }

  /** As SimClose, for a system given part by part. */
  lemma SimMade(s: System, h: Trail, nodes: map<Id, Node>, net: set<Message>, out: seq<Output>)
    requires TrailInv(h) && h.book.members == s.members && nodes.Keys == s.members
    requires NodesFit(h, nodes) && NetFits(h, net) && OutFits(h, out)
    ensures Sim(s.(nodes := nodes, net := net, out := out), h)
  {
    SimClose(s.(nodes := nodes, net := net, out := out), h);
  }

  lemma SimNode(s: System, h: Trail, v: Id)
    requires Sim(s, h) && v in s.nodes
    ensures NodeOK(h, v, s.nodes[v])
  {
    SimOpen(s, h);
  }

  lemma SimOutput(s: System, h: Trail, o: Output)
    requires Sim(s, h) && o in s.out
    ensures OutputOK(h, o)
  {
    SimOpen(s, h);
  }

  // ---- growth ----

  lemma ReadGoodStays(h: Trail, k: Trail, client: nat, index: nat)
    requires Grows(h, k) && ReadGood(h, client, index)
    ensures ReadGood(k, client, index)
  {
    GrowthOpen(h, k);
    var r :| GoodReg(h, client, index, r);
    assert GoodReg(k, client, index, r);
  }

  lemma OutputStays(h: Trail, k: Trail, o: Output)
    requires Grows(h, k) && OutputOK(h, o)
    ensures OutputOK(k, o)
  {
    GrowthOpen(h, k);
    match o
    case Applied(_, e) => SettledStays(h.book, k.book, e);
    case ProposeOk(_, _, e) => SettledStays(h.book, k.book, e);
    case ProposeLost(_, index, term) =>
      var e :| Settled(h.book, e) && e.index == index && e.term != term;
      SettledStays(h.book, k.book, e);
    case ReadOk(client, _, index) => ReadGoodStays(h, k, client, index);
    case ReadLost(_) =>
  }

  lemma LoopStays(h: Trail, k: Trail, v: Id, u: Id, n: Node)
    requires TrailInv(h) && Moves(h, k, v) && u != v && LoopOK(h, u, n)
    ensures LoopOK(k, u, n)
  {
    TrailOpen(h);
    MovesOpen(h, k, v);
    GrowthOpen(h, k);
    forall w | w in n.appliedWaiters
      ensures ReadGood(k, w.client, w.index)
    {
      ReadGoodStays(h, k, w.client, w.index);
    }
    forall r | r in k.regs && r.term == n.core.term && r.id in n.readWaiters && r.term in k.book.won && k.book.won[r.term].leader == u
      ensures n.readWaiters[r.id] == r.client
    {
      assert RegAt(h, r);
    }
  }

  lemma NodeStays(h: Trail, k: Trail, v: Id, u: Id, n: Node)
    requires TrailInv(h) && Moves(h, k, v) && u != v && NodeOK(h, u, n)
    ensures NodeOK(k, u, n)
  {
    DiskStays(h, k, v, u, n.core);
    if n.up {
      CoreStays(h, k, v, u, n.core);
      LoopStays(h, k, v, u, n);
    }
  }

  lemma NodesRebuilt(h: Trail, k: Trail, nodes: map<Id, Node>, v: Id, n: Node)
    requires TrailInv(h) && Moves(h, k, v) && NodesFit(h, nodes) && NodeOK(k, v, n)
    ensures NodesFit(k, nodes[v := n])
  {
    var after := nodes[v := n];
    forall u | u in after
      ensures NodeOK(k, u, after[u])
    {
      if u != v { NodeStays(h, k, v, u, nodes[u]); }
    }
  }

  lemma NetStays(h: Trail, k: Trail, net: set<Message>)
    requires Grows(h, k) && NetFits(h, net)
    ensures NetFits(k, net)
  {
    forall m | m in net
      ensures MessageOK(k, m)
    {
      MessageStays(h, k, m);
    }
  }

  lemma OutStays(h: Trail, k: Trail, out: seq<Output>)
    requires Grows(h, k) && OutFits(h, out)
    ensures OutFits(k, out)
  {
    forall o | o in out
      ensures OutputOK(k, o)
    {
      OutputStays(h, k, o);
    }
  }

  lemma NetGrows(h: Trail, k: Trail, net: set<Message>, sent: set<Message>)
    requires Grows(h, k) && NetFits(h, net) && NetFits(k, sent)
    ensures NetFits(k, net + sent)
  {
    NetStays(h, k, net);
  }

  lemma OutGrows(h: Trail, k: Trail, out: seq<Output>, said: seq<Output>)
    requires Grows(h, k) && OutFits(h, out) && OutFits(k, said)
    ensures OutFits(k, out + said)
  {
    OutStays(h, k, out);
  }

  lemma PartsRebuilt(h: Trail, k: Trail, v: Id, s: System, n: Node, sent: set<Message>, said: seq<Output>)
    requires TrailInv(h) && Moves(h, k, v) && NodesFit(h, s.nodes) && NetFits(h, s.net) && OutFits(h, s.out)
    requires NodeOK(k, v, n) && NetFits(k, sent) && OutFits(k, said)
    ensures NodesFit(k, s.nodes[v := n]) && NetFits(k, s.net + sent) && OutFits(k, s.out + said)
  {
    Grew(h, k, v);
    NodesRebuilt(h, k, s.nodes, v, n);
    NetGrows(h, k, s.net, sent);
    OutGrows(h, k, s.out, said);
  }

  lemma SameKeys(nodes: map<Id, Node>, v: Id, n: Node)
    requires v in nodes
    ensures nodes[v := n].Keys == nodes.Keys
  {
  }

  /** The whole cluster after a step on v, given v's new node and what it sent and said. */
  lemma Rebuild(s: System, h: Trail, k: Trail, v: Id, n: Node, sent: set<Message>, said: seq<Output>)
    requires Sim(s, h) && v in s.members && Moves(h, k, v) && NodeOK(k, v, n) && NetFits(k, sent) && OutFits(k, said)
    ensures Sim(s.(nodes := s.nodes[v := n], net := s.net + sent, out := s.out + said), k)
  {
    SimOpen(s, h);
    PartsRebuilt(h, k, v, s, n, sent, said);
    Grew(h, k, v);
    SameKeys(s.nodes, v, n);
    SimMade(s, k, s.nodes[v := n], s.net + sent, s.out + said);
  }

  lemma ReplaceSim(s: System, h: Trail, k: Trail, v: Id, n: Node)
    requires Sim(s, h) && v in s.members && Moves(h, k, v) && NodeOK(k, v, n)
    ensures Sim(Replace(s, v, n), k)
  {
    Rebuild(s, h, k, v, n, {}, []);
    assert s.net + {} == s.net && s.out + [] == s.out;
  }

  // ---- draining a core ----

  /** Work in progress: the loop's bookkeeping and everything said so far are in order. */
  ghost predicate WorkOK(h: Trail, v: Id, w: Work)
  {
    LoopOK(h, v, w.node) && OutFits(h, w.out)
  }

  lemma {:induction false} ReleasedOK(h: Trail, v: Id, ws: seq<AppliedWaiter>, applied: nat)
    requires forall w :: w in ws ==> ReadGood(h, w.client, w.index)
    ensures OutFits(h, Released(v, ws, applied))
    ensures forall w :: w in StillWaiting(ws, applied) ==> w in ws
  {
    if ws != [] {
      assert ws[|ws| - 1] in ws;
      ReleasedOK(h, v, ws[..|ws| - 1], applied);
    }
  }

  lemma FireOK(h: Trail, v: Id, w: Work)
    requires WorkOK(h, v, w)
    ensures WorkOK(h, v, FireAppliedWaiters(v, w))
  {
    ReleasedOK(h, v, w.node.appliedWaiters, w.node.applied);
  }

  /** An entry committed at an index is the one its own term's leader put there. */
  lemma SettledInItsTerm(h: Trail, e: Entry)
    requires TrailInv(h) && Settled(h.book, e)
    ensures e.term in h.book.lead && 0 < e.index <= |h.book.lead[e.term]| && h.book.lead[e.term][e.index - 1] == e
  {
    TrailOpen(h);
    var c :| SettledBy(h.book, e, c);
    var y, i := h.book.lead[c.term], e.index - 1;
    assert LeadAt(h.book, c.term) && BackedAt(h.book.lead, y, i);
    assert y[..i + 1][i] == e;
  }

  lemma ApplyEntryOK(h: Trail, v: Id, w: Work, e: Entry)
    requires TrailInv(h) && WorkOK(h, v, w) && Settled(h.book, e)
    ensures WorkOK(h, v, ApplyEntry(v, w, e))
  {
    var n := w.node;
    SettledInItsTerm(h, e);
    FireOK(h, v, Work(n.(sm := n.sm + [e], applied := e.index), w.out + [Applied(v, e)]));
  }

  lemma {:induction false} ApplyAllOK(h: Trail, v: Id, w: Work, es: Log)
    requires TrailInv(h) && WorkOK(h, v, w) && forall e :: e in es ==> Settled(h.book, e)
    ensures WorkOK(h, v, ApplyAll(v, w, es)) && ApplyAll(v, w, es).node.core == w.node.core
    ensures ApplyAll(v, w, es).node.readWaiters == w.node.readWaiters && ApplyAll(v, w, es).node.up == w.node.up
  {
    if es != [] {
      assert es[|es| - 1] in es;
      ApplyAllOK(h, v, w, es[..|es| - 1]);
      ApplyEntryOK(h, v, ApplyAll(v, w, es[..|es| - 1]), es[|es| - 1]);
    }
  }

  lemma ResolveReadOK(h: Trail, v: Id, w: Work, o: ReadOutcome)
    requires TrailInv(h) && WorkOK(h, v, w) && OutcomeOK(h, w.node.core.term, o)
    requires o.confirmed ==> Leads(h.book, v) && h.book.term[v] == w.node.core.term
    ensures WorkOK(h, v, ResolveRead(v, w, o))
  {
    var n := w.node;
    if o.id in n.readWaiters && o.confirmed {
      var r :| Proves(h, n.core.term, o, r);
      assert GoodReg(h, n.readWaiters[o.id], o.index, r);
    }
  }

  lemma {:induction false} ResolveAllOK(h: Trail, v: Id, w: Work, os: seq<ReadOutcome>)
    requires TrailInv(h) && WorkOK(h, v, w) && OutcomesOK(h, w.node.core.term, os)
    requires (forall o :: o in os ==> !o.confirmed) || (Leads(h.book, v) && h.book.term[v] == w.node.core.term)
    ensures WorkOK(h, v, ResolveAll(v, w, os)) && ResolveAll(v, w, os).node.core == w.node.core
    ensures ResolveAll(v, w, os).node.up == w.node.up
  {
    if os != [] {
      assert os[|os| - 1] in os;
      ResolveAllOK(h, v, w, os[..|os| - 1]);
      ResolveReadOK(h, v, ResolveAll(v, w, os[..|os| - 1]), os[|os| - 1]);
    }
  }

  lemma DrainedOK(h: Trail, v: Id, c: State)
    requires TrailInv(h) && CoreOK(h, v, c)
    ensures var d := c.(outbox := [], committed := [], readOutcomes := [], restore := None);
            CoreOK(h, v, d) && Quiet(d) && DiskOK(h, v, d)
  {
    CoreOpen(h, v, c);
    var d := c.(outbox := [], committed := [], readOutcomes := [], restore := None);
    assert c.role.Leader? ==> forall u: Id :: MatchOK(h, c, u) ==> MatchOK(h, d, u);
    CoreClose(h, v, d);
    CoreOnDisk(h, v, d);
  }

  lemma AfterStepOK(h: Trail, v: Id, n: Node)
    requires TrailInv(h) && CoreOK(h, v, n.core) && LoopOK(h, v, n) && n.up
    ensures var w := AfterStep(v, n);
            NodeOK(h, v, w.node) && w.node.up && OutFits(h, w.out)
  {
    CoreOpen(h, v, n.core);
    var w0 := Restore(v, n);
    if n.core.restore.Some? {
      FireOK(h, v, Work(n.(sm := n.core.restore.value, applied := n.core.snap.lastIndex), []));
    }
    ApplyAllOK(h, v, w0, n.core.committed);
    ResolveAllOK(h, v, ApplyAll(v, w0, n.core.committed), n.core.readOutcomes);
    DrainedOK(h, v, n.core);
  }

  // ---- one event ----

  ghost predicate RepliesFit(h: Trail, ms: seq<Message>)
  {
    forall m :: m in ms ==> MessageOK(h, m)
  }

  /** The bookkeeping survives a step that registers no read, whatever it does to the core. */
  lemma LoopMoved(h: Trail, k: Trail, v: Id, n: Node, c: State)
    requires TrailInv(h) && StepBy(h, k, v) && LoopOK(h, v, n) && v in h.book.members
    requires n.core.term == h.book.term[v] && c.term == k.book.term[v]
    ensures LoopOK(k, v, n.(core := c))
  {
    TrailOpen(h);
    MovesOpen(h, k, v);
    GrowthOpen(h, k);
    forall w | w in n.appliedWaiters
      ensures ReadGood(k, w.client, w.index)
    {
      ReadGoodStays(h, k, w.client, w.index);
    }
    forall r | r in k.regs && r.term == c.term && r.id in n.readWaiters && r.term in k.book.won && k.book.won[r.term].leader == v
      ensures n.readWaiters[r.id] == r.client
    {
      assert RegAt(h, r) && WonAt(h.book, r.term);
    }
  }

  /** What a message does to the core that receives it: the core, or what is left of it, and the answer. */
  ghost predicate Handled(k: Trail, v: Id, d: State, reply: seq<Message>)
  {
    if d.halted then DiskOK(k, v, d) else CoreOK(k, v, d) && RepliesFit(k, reply)
  }

  /** The one event that stops a node: a request the node must refuse. */
  predicate MustRefuse(c: State, m: Message)
  {
    m.AskAppend? && Refuses(c, m.app)
  }

  lemma HandleAsk(h: Trail, cfg: Config, v: Id, c: State, m: Message, recent: bool) returns (k: Trail)
    requires TrailInv(h) && CoreOK(h, v, c) && Quiet(c) && ConfigOK(h, cfg) && cfg.id == v && MessageOK(h, m) && m.to == v
    requires m.AskVote? || m.AskAppend? || m.AskInstall? || m.AskTimeoutNow?
    ensures StepBy(h, k, v) && Handled(k, v, Handle(cfg, c, m, recent).0, Handle(cfg, c, m, recent).1)
    ensures Handle(cfg, c, m, recent).0.halted <==> MustRefuse(c, m)
  {
    match m
    case AskVote(_, q) => k := HandleRequestVoteOK(h, v, c, q, recent);
    case AskAppend(_, q) => k := HandleAppendEntriesOK(h, v, c, q);
    case AskInstall(_, q) => k := HandleInstallSnapshotOK(h, v, c, q);
    case AskTimeoutNow(_, term, leader) => k := HandleTimeoutNowOK(h, cfg, v, c, term, leader);
  }

  lemma HandleTell(h: Trail, cfg: Config, v: Id, c: State, m: Message, recent: bool) returns (k: Trail)
    requires TrailInv(h) && CoreOK(h, v, c) && Quiet(c) && ConfigOK(h, cfg) && cfg.id == v && MessageOK(h, m) && m.to == v
    requires m.TellVote? || m.TellAppend? || m.TellInstall?
    ensures StepBy(h, k, v) && Handled(k, v, Handle(cfg, c, m, recent).0, Handle(cfg, c, m, recent).1)
    ensures Handle(cfg, c, m, recent).0.halted <==> MustRefuse(c, m)
  {
    match m
    case TellVote(from, _, q, r) =>
      if q.preVote {
        k := HandlePreVoteReplyOK(h, cfg, v, c, from, q, r);
      } else {
        k := HandleVoteReplyOK(h, cfg, v, c, from, q, r);
      }
    case TellAppend(from, _, q, r) => k := HandleAppendReplyOK(h, cfg, v, c, from, q, r);
    case TellInstall(from, _, q, r) => k := HandleSnapReplyOK(h, cfg, v, c, from, q, r);
  }

  lemma HandleOK(h: Trail, cfg: Config, v: Id, c: State, m: Message, recent: bool) returns (k: Trail)
    requires TrailInv(h) && CoreOK(h, v, c) && Quiet(c) && ConfigOK(h, cfg) && cfg.id == v && MessageOK(h, m) && m.to == v
    ensures StepBy(h, k, v) && Handled(k, v, Handle(cfg, c, m, recent).0, Handle(cfg, c, m, recent).1)
    ensures Handle(cfg, c, m, recent).0.halted <==> MustRefuse(c, m)
  {
    if m.TellVote? || m.TellAppend? || m.TellInstall? {
      k := HandleTell(h, cfg, v, c, m, recent);
    } else {
      k := HandleAsk(h, cfg, v, c, m, recent);
    }
  }

  /** Reads registered in a step are those of its client, made against everything committed before it. */
  ghost predicate RegsFrom(h: Trail, k: Trail, a: Action)
  {
    forall r :: r in k.regs && r !in h.regs ==> a.ClientRead? && r.client == a.client && r.commits == h.book.commits
  }

  /** A node after one dispatched action, its queues not yet drained. */
  ghost predicate Dispatched(h: Trail, k: Trail, v: Id, a: Action, n: Node, reply: seq<Message>)
  {
    && Moves(h, k, v) && RegsFrom(h, k, a) && n.up
    && (if n.core.halted then DiskOK(k, v, n.core)
        else CoreOK(k, v, n.core) && LoopOK(k, v, n) && RepliesFit(k, reply))
  }

  lemma AddWaiter(h: Trail, v: Id, n: Node, i: nat, w: Waiter)
    requires LoopOK(h, v, n) && WaiterOK(h.book, i, w)
    ensures LoopOK(h, v, n.(waiters := n.waiters[i := w]))
  {
  }

  lemma ProposeDispatched(h: Trail, cfg: Config, v: Id, n: Node, a: Action) returns (k: Trail)
    requires TrailInv(h) && NodeOK(h, v, n) && n.up && ConfigOK(h, cfg) && cfg.id == v && a.ClientPropose?
    ensures Dispatched(h, k, v, a, Dispatch(cfg, n, a).0, Dispatch(cfg, n, a).1)
    ensures !Dispatch(cfg, n, a).0.core.halted
  {
    k := ProposeOK(h, cfg, v, n.core, a.command);
    var (c, r) := Propose(cfg, n.core, a.command);
    LoopMoved(h, k, v, n, c);
    if r.Accepted? {
      AddWaiter(k, v, n.(core := c), r.index, Waiter(r.term, a.client, a.command));
    }
  }

  lemma ReadDispatched(h: Trail, cfg: Config, v: Id, n: Node, a: Action) returns (k: Trail)
    requires TrailInv(h) && NodeOK(h, v, n) && n.up && ConfigOK(h, cfg) && cfg.id == v && a.ClientRead?
    ensures Dispatched(h, k, v, a, Dispatch(cfg, n, a).0, Dispatch(cfg, n, a).1)
    ensures !Dispatch(cfg, n, a).0.core.halted
  {
    k := RequestReadOK(h, cfg, v, n.core, a.client);
    var c, r := RequestRead(cfg, n.core).0, RequestRead(cfg, n.core).1;
    if r.ReadRegistered? {
      RegisteredLoop(h, k, v, n, c, a.client);
      assert r.id == n.core.readCounter + 1;
      assert Dispatch(cfg, n, a).0 == n.(core := c, readWaiters := n.readWaiters[n.core.readCounter + 1 := a.client]);
    } else {
      assert Dispatch(cfg, n, a).0 == n;
    }
  }

  lemma RegisteredReaders(h: Trail, k: Trail, v: Id, n: Node, client: nat)
    requires TrailInv(h) && CoreOK(h, v, n.core) && ReadersOK(h, v, n.core.term, n.readWaiters) && n.core.role.Leader?
    requires k.regs == h.regs + {Registration(h, n.core, client)} && Moves(h, k, v)
    ensures ReadersOK(k, v, n.core.term, n.readWaiters[n.core.readCounter + 1 := client])
  {
    CoreOpen(h, v, n.core);
    LeadIsLog(h, v, n.core);
  }

  lemma RegisteredLoop(h: Trail, k: Trail, v: Id, n: Node, c: State, client: nat)
    requires TrailInv(h) && NodeOK(h, v, n) && n.up && n.core.role.Leader? && Moves(h, k, v)
    requires k.regs == h.regs + {Registration(h, n.core, client)} && c.term == n.core.term
    ensures LoopOK(k, v, n.(core := c, readWaiters := n.readWaiters[n.core.readCounter + 1 := client]))
  {
    RegisteredReaders(h, k, v, n, client);
    Grew(h, k, v);
    forall w | w in n.appliedWaiters
      ensures ReadGood(k, w.client, w.index)
    {
      ReadGoodStays(h, k, w.client, w.index);
    }
    GrowthOpen(h, k);
  }

  /** The actions that neither propose nor read. */
  lemma CoreDispatched(h: Trail, cfg: Config, v: Id, n: Node, a: Action) returns (k: Trail)
    requires TrailInv(h) && NodeOK(h, v, n) && n.up && ConfigOK(h, cfg) && cfg.id == v
    requires !a.ClientPropose? && !a.ClientRead? && !a.Restart?
    requires a.Receive? ==> MessageOK(h, a.msg) && a.msg.to == v
    ensures StepBy(h, k, v) && Handled(k, v, Dispatch(cfg, n, a).0.core, Dispatch(cfg, n, a).1)
    ensures Dispatch(cfg, n, a).0 == n.(core := Dispatch(cfg, n, a).0.core)
    ensures Dispatch(cfg, n, a).0.core.halted <==> a.Receive? && MustRefuse(n.core, a.msg)
  {
    match a
    case Timeout(direct) => k := ElectionTimeoutOK(h, cfg, v, n.core, direct);
    case Beat => k := HeartbeatOK(h, cfg, v, n.core);
    case Receive(m, recent) => k := HandleOK(h, cfg, v, n.core, m, recent);
    case Transfer(to) => k := TransferOK(h, cfg, v, n.core, to);
    case TransferExpires =>
      k := h;
      StepByNothing(h, v);
      TargetFree(h, v, n.core, NO_NODE);
    case TakeSnapshot =>
      k := h;
      StepByNothing(h, v);
      CompactOK(h, v, n.core, n.applied, n.sm);
  }

  lemma DispatchOK(h: Trail, cfg: Config, v: Id, n: Node, a: Action) returns (k: Trail)
    requires TrailInv(h) && NodeOK(h, v, n) && n.up && ConfigOK(h, cfg) && cfg.id == v && !a.Restart?
    requires a.Receive? ==> MessageOK(h, a.msg) && a.msg.to == v
    ensures Dispatched(h, k, v, a, Dispatch(cfg, n, a).0, Dispatch(cfg, n, a).1)
    ensures Dispatch(cfg, n, a).0.core.halted <==> a.Receive? && MustRefuse(n.core, a.msg)
  {
    if a.ClientPropose? {
      k := ProposeDispatched(h, cfg, v, n, a);
    } else if a.ClientRead? {
      k := ReadDispatched(h, cfg, v, n, a);
    } else {
      k := CoreDispatched(h, cfg, v, n, a);
      LoopMoved(h, k, v, n, Dispatch(cfg, n, a).0.core);
    }
  }

  lemma ConfigFits(s: System, h: Trail, ev: Event)
    requires Sim(s, h) && Enabled(s, ev)
    ensures ConfigOK(h, Config(ev.node, s.members, ev.peers)) && NodeOK(h, ev.node, s.nodes[ev.node])
    ensures ev.action.Receive? ==> MessageOK(h, ev.action.msg)
    ensures ev.action.Restart? && ev.action.crash.MidAppend? ==> MessageOK(h, AskAppend(ev.node, ev.action.crash.req))
  {
    SimOpen(s, h);
  }

  lemma RestartSim(s: System, h: Trail, ev: Event) returns (k: Trail)
    requires Sim(s, h) && Enabled(s, ev) && ev.action.Restart?
    ensures Sim(Step(s, ev), k) && Grows(h, k) && k.regs == h.regs
  {
    var cfg, n, v, crash := Config(ev.node, s.members, ev.peers), s.nodes[ev.node], ev.node, ev.action.crash;
    ConfigFits(s, h, ev);
    k := BootOK(h, cfg, v, n, crash);
    Grew(h, k, v);
    ReplaceSim(s, h, k, v, Reboot(OnDisk(cfg, n, crash)));
  }

  lemma BootOK(h: Trail, cfg: Config, v: Id, n: Node, crash: Crash) returns (k: Trail)
    requires TrailInv(h) && ConfigOK(h, cfg) && cfg.id == v && NodeOK(h, v, n)
    requires crash.MidAppend? ==> MessageOK(h, AskAppend(v, crash.req))
    ensures StepBy(h, k, v) && NodeOK(k, v, Reboot(OnDisk(cfg, n, crash)))
  {
    if n.up {
      k := OnDiskOK(h, cfg, v, n, crash);
    } else {
      k := h;
      StepByNothing(h, v);
    }
    var d := OnDisk(cfg, n, crash);
    RebootOK(k, v, d);
    CoreOnDisk(k, v, Reboot(d).core);
  }

  lemma SentFits(h: Trail, c: State, reply: seq<Message>)
    requires QueuesOK(h, c) && RepliesFit(h, reply)
    ensures NetFits(h, AsSet(reply) + AsSet(c.outbox))
  {
  }

  /** The cluster once v, its action dispatched, has drained its queues. */
  lemma FinishSim(s: System, h: Trail, k: Trail, v: Id, n: Node, reply: seq<Message>)
    requires Sim(s, h) && v in s.members && Moves(h, k, v)
    requires n.up && CoreOK(k, v, n.core) && LoopOK(k, v, n) && RepliesFit(k, reply)
    ensures Sim(Finish(s, v, n, reply), k)
  {
    var w, sent := AfterStep(v, n), AsSet(reply) + AsSet(n.core.outbox);
    AfterStepOK(k, v, n);
    CoreOpen(k, v, n.core);
    SentFits(k, n.core, reply);
    Rebuild(s, h, k, v, w.node, sent, w.out);
    assert s.net + sent == s.net + AsSet(reply) + AsSet(n.core.outbox);
  }

  lemma ActSim(s: System, h: Trail, ev: Event) returns (k: Trail)
    requires Sim(s, h) && Enabled(s, ev) && !ev.action.Restart?
    ensures Sim(Step(s, ev), k) && Grows(h, k) && RegsFrom(h, k, ev.action)
  {
    var cfg, n, v := Config(ev.node, s.members, ev.peers), s.nodes[ev.node], ev.node;
    ConfigFits(s, h, ev);
    k := DispatchOK(h, cfg, v, n, ev.action);
    Grew(h, k, v);
    var (n1, reply) := Dispatch(cfg, n, ev.action);
    if n1.core.halted {
      ReplaceSim(s, h, k, v, n1.(up := false));
    } else {
      FinishSim(s, h, k, v, n1, reply);
    }
  }

  lemma StepSim(s: System, h: Trail, ev: Event) returns (k: Trail)
    requires Sim(s, h)
    ensures Sim(Step(s, ev), k) && Grows(h, k) && RegsFrom(h, k, ev.action)
  {
    if !Enabled(s, ev) {
      k := h;
      StepByNothing(h, ev.node);
      Grew(h, h, ev.node);
    } else if ev.action.Restart? {
      k := RestartSim(s, h, ev);
    } else {
      k := ActSim(s, h, ev);
    }
  }

  lemma StartSim(members: set<Id>)
    requires NO_NODE !in members
    ensures Sim(Start(members), Trail(Blank(members), map[], {}, {}))
  {
    BlankOK(members);
    var h := Trail(Blank(members), map[], {}, {});
    TrailClose(h);
    forall v | v in members
      ensures NodeOK(h, v, Start(members).nodes[v])
    {
      RebootOK(h, v, NewCore(0, NO_NODE, EMPTY_SNAPSHOT, []));
    }
  }

  // ---- whole runs ----

  /** The cluster after the first i events of a run. */
  function At(members: set<Id>, run: seq<Event>, i: nat): System
    requires i <= |run|
  {
    Exec(members, run[..i])
  }

  lemma AtNext(members: set<Id>, run: seq<Event>, i: nat)
    requires i < |run|
    ensures At(members, run, i + 1) == Step(At(members, run, i), run[i])
  {
    assert run[..i + 1][..i] == run[..i];
  }

  ghost predicate SimAt(members: set<Id>, run: seq<Event>, hs: seq<Trail>, i: nat)
  {
    i < |hs| && i <= |run| ==> Sim(At(members, run, i), hs[i])
  }

  ghost predicate StepAt(run: seq<Event>, hs: seq<Trail>, i: nat)
  {
    i < |run| && i + 1 < |hs| ==> Grows(hs[i], hs[i + 1]) && RegsFrom(hs[i], hs[i + 1], run[i].action)
  }

  /** hs[i] is a trail of the run's first i events, each extending the one before. */
  ghost predicate Traces(members: set<Id>, run: seq<Event>, hs: seq<Trail>)
  {
    && (forall i: nat {:trigger SimAt(members, run, hs, i)} :: SimAt(members, run, hs, i))
    && (forall i: nat {:trigger StepAt(run, hs, i)} :: StepAt(run, hs, i))
  }

  lemma TraceFrom(members: set<Id>, run: seq<Event>, n: nat) returns (hs: seq<Trail>)
    requires NO_NODE !in members && n <= |run|
    ensures |hs| == n + 1 && Traces(members, run, hs) && hs[0].regs == {}
  {
    StartSim(members);
    hs := [Trail(Blank(members), map[], {}, {})];
    assert run[..0] == [];
    var i := 0;
    while i < n
      invariant i <= n && |hs| == i + 1 && Traces(members, run, hs) && hs[0].regs == {}
    {
      assert SimAt(members, run, hs, i);
      var k := StepSim(At(members, run, i), hs[i], run[i]);
      AtNext(members, run, i);
      Lengthen(members, run, hs, k);
      hs := hs + [k];
      i := i + 1;
    }
  }

  lemma Lengthen(members: set<Id>, run: seq<Event>, hs: seq<Trail>, k: Trail)
    requires Traces(members, run, hs) && 0 < |hs| <= |run|
    requires Sim(At(members, run, |hs|), k)
    requires Grows(hs[|hs| - 1], k) && RegsFrom(hs[|hs| - 1], k, run[|hs| - 1].action)
    ensures Traces(members, run, hs + [k])
  {
    forall i: nat
      ensures SimAt(members, run, hs + [k], i) && StepAt(run, hs + [k], i)
    {
      assert SimAt(members, run, hs, i) && StepAt(run, hs, i);
    }
  }

  /** Every run has a trail. */
  lemma Trace(members: set<Id>, run: seq<Event>) returns (hs: seq<Trail>)
    requires NO_NODE !in members
    ensures |hs| == |run| + 1 && Traces(members, run, hs) && hs[0].regs == {}
  {
    hs := TraceFrom(members, run, |run|);
  }

  lemma {:induction false} TraceGrows(members: set<Id>, run: seq<Event>, hs: seq<Trail>, i: nat, j: nat)
    requires Traces(members, run, hs) && |hs| == |run| + 1 && i <= j <= |run|
    ensures Grows(hs[i], hs[j])
    decreases j
  {
    if i < j {
      TraceGrows(members, run, hs, i, j - 1);
      assert StepAt(run, hs, j - 1);
      GrowsTrans(hs[i], hs[j - 1], hs[j]);
    } else {
      assert SimAt(members, run, hs, i);
      StepByNothing(hs[i], NO_NODE);
      Grew(hs[i], hs[i], NO_NODE);
    }
  }
}
