/** The state machines themselves: they apply the log in order, never disagree, and a read that is
    answered sees every write that was applied anywhere before it was asked. */
module Linearizable {
  import opened RaftLog
  import opened RaftCore
  import opened Cluster
  import opened Ledger
  import opened Trail
  import opened CoreSim
  import opened SnapshotSim
  import opened ClusterSim
  import opened Safety
  import opened Outcomes
  import opened Delivery

  // ---- applying in order, exactly once ----

  /** Between two moments of one incarnation: the delivery cursor does not move back, what lay below
      it is unchanged, and the state machine has been handed exactly the stretch it moved over. */
  predicate HandedOver(n: Node, m: Node)
  {
    && n.core.lastDelivered <= |Full(n.core)| && m.core.lastDelivered <= |Full(m.core)|
    && n.core.lastDelivered <= m.core.lastDelivered
    && Full(m.core)[..n.core.lastDelivered] == Full(n.core)[..n.core.lastDelivered]
    && m.sm == n.sm + Full(m.core)[n.core.lastDelivered..m.core.lastDelivered]
  }

  lemma HandedOverTrans(a: Node, b: Node, c: Node)
    requires HandedOver(a, b) && HandedOver(b, c)
    ensures HandedOver(a, c)
  {
    var x, i, j, k := Full(c.core), a.core.lastDelivered, b.core.lastDelivered, c.core.lastDelivered;
    assert x[..i] == x[..j][..i] == Full(b.core)[..j][..i] == Full(b.core)[..i];
    assert x[i..j] == x[..j][i..] == Full(b.core)[..j][i..] == Full(b.core)[i..j];
    Adjoin(x, i, j, k);
  }

  /** A snapshot arrives and the core takes it: it is not of an old term, nor stale. */
  predicate Installs(c: State, a: Action)
  {
    IsInstall(a) && c.term <= a.msg.ins.term && !StaleSnapshot(c, a.msg.ins.snap)
  }

  /** Event k neither restarts v nor installs a snapshot on it. */
  predicate Undisturbed(members: set<Id>, run: seq<Event>, v: Id, k: nat)
  {
    k < |run| && v in At(members, run, k).nodes && run[k].node == v ==>
      !run[k].action.Restart? && !Installs(At(members, run, k).nodes[v].core, run[k].action)
  }

  lemma ActSpans(cfg: Config, n: Node, a: Action)
    requires !Installs(n.core, a) && !a.TakeSnapshot?
    ensures Spans(n.core, Dispatch(cfg, n, a).0.core)
  {
    if IsInstall(a) {
      InstallKeeps(n.core, a.msg.ins);
    } else {
      DispatchSpans(cfg, n, a);
    }
  }

  lemma ActHandsOver(h: Trail, cfg: Config, v: Id, n: Node, a: Action)
    requires TrailInv(h) && NodeOK(h, v, n) && n.up && ConfigOK(h, cfg) && cfg.id == v && !a.Restart? && !Installs(n.core, a)
    requires a.Receive? ==> MessageOK(h, a.msg) && a.msg.to == v
    ensures var n1, w := Dispatch(cfg, n, a).0, AfterStep(v, Dispatch(cfg, n, a).0);
            !n1.core.halted ==>
              HandedOver(n, w.node) && AppliedIn(w.out) == Full(n1.core)[n.core.lastDelivered..n1.core.lastDelivered]
  {
    var k := DispatchOK(h, cfg, v, n, a);
    var n1 := Dispatch(cfg, n, a).0;
    if !n1.core.halted {
      DispatchedNode(cfg, n, a);
      if a.TakeSnapshot? {
        CompactHandsOver(h, v, n, n1);
      } else {
        ActSpans(cfg, n, a);
        HandsOver(h, k, v, n.core, n1.core);
        Drains(h, k, v, n, n1.core, n1);
      }
    }
  }

  lemma CompactHandsOver(h: Trail, v: Id, n: Node, n1: Node)
    requires TrailInv(h) && NodeOK(h, v, n) && n.up && n1 == n.(core := Compact(n.core, n.applied, n.sm)) && !n1.core.halted
    ensures HandedOver(n, AfterStep(v, n1).node) && AppliedIn(AfterStep(v, n1).out) == []
    ensures n1.core.lastDelivered == n.core.lastDelivered
  {
    CompactOK(h, v, n.core, n.applied, n.sm);
    AfterStepApplies(v, n1);
  }

  /** A node that an event is not on stays as it was. */
  lemma OthersStay(s: System, ev: Event, v: Id)
    requires v in s.nodes && (ev.node != v || !Enabled(s, ev))
    ensures v in Step(s, ev).nodes && Step(s, ev).nodes[v] == s.nodes[v]
  {
  }

  lemma EventHandsOver(s: System, h: Trail, ev: Event, v: Id)
    requires Sim(s, h) && v in s.nodes && (ev.node == v ==> !ev.action.Restart? && !Installs(s.nodes[v].core, ev.action))
    ensures var t := Step(s, ev); v in t.nodes && (t.nodes[v].up ==> s.nodes[v].up && HandedOver(s.nodes[v], t.nodes[v]))
  {
    if s.nodes[v].up {
      CommittedFacts(s, h, v);
    }
    if ev.node != v || !Enabled(s, ev) {
      OthersStay(s, ev, v);
    } else {
      ConfigFits(s, h, ev);
      ActHandsOver(h, Config(v, s.members, ev.peers), v, s.nodes[v], ev.action);
    }
  }

  lemma StepHandsOver(members: set<Id>, run: seq<Event>, k: nat, v: Id)
    requires NO_NODE !in members && k < |run| && v in At(members, run, k).nodes && Undisturbed(members, run, v, k)
    ensures var s, t := At(members, run, k), At(members, run, k + 1);
            v in t.nodes && (t.nodes[v].up ==> s.nodes[v].up && HandedOver(s.nodes[v], t.nodes[v]))
  {
    var hs := Trace(members, run);
    assert SimAt(members, run, hs, k);
    AtNext(members, run, k);
    EventHandsOver(At(members, run, k), hs[k], run[k], v);
  }

  /** Within one incarnation, and as long as it installs no snapshot, a node applies contiguous indices
      exactly once each, in order, however its commit index moves. */
  lemma {:induction false} AppliesExactlyOnce(members: set<Id>, run: seq<Event>, i: nat, j: nat, v: Id)
    requires NO_NODE !in members && i <= j <= |run| && v in At(members, run, i).nodes && v in At(members, run, j).nodes
    requires forall k: nat :: i <= k < j ==> Undisturbed(members, run, v, k)
    requires At(members, run, j).nodes[v].up
    ensures At(members, run, i).nodes[v].up && HandedOver(At(members, run, i).nodes[v], At(members, run, j).nodes[v])
    decreases j
  {
    if i == j {
      var hs := Trace(members, run);
      assert SimAt(members, run, hs, i);
      CommittedFacts(At(members, run, i), hs[i], v);
    } else {
      SameNodes(members, run, j - 1, j);
      assert Undisturbed(members, run, v, j - 1);
      StepHandsOver(members, run, j - 1, v);
      AppliesExactlyOnce(members, run, i, j - 1, v);
      HandedOverTrans(At(members, run, i).nodes[v], At(members, run, j - 1).nodes[v], At(members, run, j).nodes[v]);
    }
  }

  lemma SameNodes(members: set<Id>, run: seq<Event>, i: nat, j: nat)
    requires NO_NODE !in members && i <= |run| && j <= |run|
    ensures At(members, run, i).nodes.Keys == At(members, run, j).nodes.Keys
  {
    var a, b, g := Both(members, run, i, j);
  }

  // ---- agreement ----

  /** In a run without rewinding installs, any two state machines, of any nodes at any moments, have
      applied the same entries as far as both have got. */
  lemma StateMachinesAgree(members: set<Id>, run: seq<Event>, i: nat, j: nat, v: Id, w: Id)
    requires NO_NODE !in members && i <= |run| && j <= |run| && NoRewind(members, run)
    requires v in At(members, run, i).nodes && At(members, run, i).nodes[v].up
    requires w in At(members, run, j).nodes && At(members, run, j).nodes[w].up
    ensures var x, y := At(members, run, i).nodes[v].sm, At(members, run, j).nodes[w].sm;
            if |x| <= |y| then x <= y else y <= x
  {
    IntactUpTo(members, run, i);
    IntactUpTo(members, run, j);
    assert Intact(At(members, run, i).nodes[v]) && Intact(At(members, run, j).nodes[w]);
    CommittedAgree(members, run, i, j, v, w);
    CommittedAgree(members, run, j, i, w, v);
  }

  // ---- reads ----

  /** Every read answered so far in this step was answered by v, at an index it has applied. */
  predicate Ripe(v: Id, w: Work)
  {
    forall o :: o in w.out && o.ReadOk? ==> o.node == v && o.index <= w.node.applied
  }

  lemma {:induction false} ReleasedRipe(v: Id, ws: seq<AppliedWaiter>, applied: nat)
    ensures forall o :: o in Released(v, ws, applied) && o.ReadOk? ==> o.node == v && o.index <= applied
  {
    if ws != [] { ReleasedRipe(v, ws[..|ws| - 1], applied); }
  }

  lemma FireRipe(v: Id, w: Work)
    requires Ripe(v, w)
    ensures Ripe(v, FireAppliedWaiters(v, w))
  {
    ReleasedRipe(v, w.node.appliedWaiters, w.node.applied);
  }

  lemma ApplyEntryRipe(v: Id, w: Work, e: Entry)
    requires Ripe(v, w) && w.node.applied <= e.index
    ensures Ripe(v, ApplyEntry(v, w, e)) && ApplyEntry(v, w, e).node.applied == e.index
  {
    var n := w.node;
    FireRipe(v, Work(n.(sm := n.sm + [e], applied := e.index), w.out + [Applied(v, e)]));
  }

  lemma {:induction false} ApplyAllRipe(v: Id, w: Work, es: Log, lo: nat)
    requires Ripe(v, w) && Numbered(lo, es) && w.node.applied <= lo
    ensures Ripe(v, ApplyAll(v, w, es)) && ApplyAll(v, w, es).node.applied <= lo + |es|
  {
    if es != [] {
      ApplyAllRipe(v, w, es[..|es| - 1], lo);
      ApplyEntryRipe(v, ApplyAll(v, w, es[..|es| - 1]), es[|es| - 1]);
    }
  }

  lemma {:induction false} ResolveAllRipe(v: Id, w: Work, rs: seq<ReadOutcome>)
    requires Ripe(v, w)
    ensures Ripe(v, ResolveAll(v, w, rs)) && ResolveAll(v, w, rs).node.applied == w.node.applied
  {
    if rs != [] { ResolveAllRipe(v, w, rs[..|rs| - 1]); }
  }

  lemma AfterStepRipe(v: Id, n: Node, lo: nat)
    requires n.core.committed == [] || (n.core.restore.None? && Numbered(lo, n.core.committed) && n.applied <= lo)
    ensures Ripe(v, AfterStep(v, n))
  {
    if n.core.restore.Some? {
      FireRipe(v, Work(n.(sm := n.core.restore.value, applied := n.core.snap.lastIndex), []));
    }
    if n.core.committed != [] {
      ApplyAllRipe(v, Restore(v, n), n.core.committed, lo);
    }
    ResolveAllRipe(v, ApplyAll(v, Restore(v, n), n.core.committed), n.core.readOutcomes);
  }

  lemma SliceNumbered(h: Trail, v: Id, d: State, lo: nat)
    requires TrailInv(h) && CoreOK(h, v, d) && lo <= d.lastDelivered
    ensures Numbered(lo, Full(d)[lo..d.lastDelivered])
  {
    TrailOpen(h);
    assert NodeAt(h.book, v);
    forall i | 0 <= i < d.lastDelivered - lo
      ensures Full(d)[lo..d.lastDelivered][i].index == lo + 1 + i
    {
      LogShape(h.book, Full(d), lo + i);
    }
  }

  /** A running node has applied no further than it has delivered. */
  predicate Behind(n: Node)
  {
    n.up ==> n.applied <= n.core.lastDelivered
  }

  predicate AllBehind(s: System)
  {
    forall v :: v in s.nodes ==> Behind(s.nodes[v])
  }

  lemma ActRipe(h: Trail, cfg: Config, v: Id, n: Node, a: Action)
    requires TrailInv(h) && NodeOK(h, v, n) && n.up && Behind(n) && ConfigOK(h, cfg) && cfg.id == v && !a.Restart?
    requires a.Receive? ==> MessageOK(h, a.msg) && a.msg.to == v
    ensures var n1 := Dispatch(cfg, n, a).0; !n1.core.halted ==> Ripe(v, AfterStep(v, n1))
  {
    var k := DispatchOK(h, cfg, v, n, a);
    var n1 := Dispatch(cfg, n, a).0;
    if !n1.core.halted {
      DispatchedNode(cfg, n, a);
      if !IsInstall(a) && !a.TakeSnapshot? {
        DispatchSpans(cfg, n, a);
        HandsOver(h, k, v, n.core, n1.core);
        SliceNumbered(k, v, n1.core, n.core.lastDelivered);
      } else {
        NothingQueued(cfg, n, a);
      }
      AfterStepRipe(v, n1, n.core.lastDelivered);
    }
  }

  lemma InstallBehind(v: Id, n: Node, q: SnapRequest)
    requires Quiet(n.core) && Behind(n)
    ensures Behind(AfterStep(v, n.(core := HandleInstallSnapshot(n.core, q).0)).node)
  {
    var n1 := n.(core := HandleInstallSnapshot(n.core, q).0);
    StaysUp(v, n1);
    if q.term < n.core.term || StaleSnapshot(n.core, q.snap) {
      InstallKeeps(n.core, q);
      AfterStepApplies(v, n1);
    } else {
      InstallTakes(n.core, q);
      AfterStepRestores(v, n1);
    }
  }

  lemma ActBehind(h: Trail, cfg: Config, v: Id, n: Node, a: Action)
    requires TrailInv(h) && NodeOK(h, v, n) && n.up && Behind(n) && ConfigOK(h, cfg) && cfg.id == v && !a.Restart?
    requires a.Receive? ==> MessageOK(h, a.msg) && a.msg.to == v
    ensures var n1 := Dispatch(cfg, n, a).0; !n1.core.halted ==> Behind(AfterStep(v, n1).node)
  {
    var k := DispatchOK(h, cfg, v, n, a);
    var n1 := Dispatch(cfg, n, a).0;
    if !n1.core.halted {
      DispatchedNode(cfg, n, a);
      if IsInstall(a) {
        InstallBehind(v, n, a.msg.ins);
      } else if a.TakeSnapshot? {
        CompactHandsOver(h, v, n, n1);
        AfterStepApplies(v, n1);
      } else {
        DispatchSpans(cfg, n, a);
        Drains(h, k, v, n, n1.core, n1);
      }
    }
  }

  lemma StepBehind(s: System, h: Trail, ev: Event)
    requires Sim(s, h) && AllBehind(s)
    ensures AllBehind(Step(s, ev))
  {
    if Enabled(s, ev) && !ev.action.Restart? {
      var cfg, n := Config(ev.node, s.members, ev.peers), s.nodes[ev.node];
      ConfigFits(s, h, ev);
      assert Behind(n);
      ActBehind(h, cfg, ev.node, n, ev.action);
    }
  }

  lemma {:induction false} AlwaysBehind(members: set<Id>, run: seq<Event>, i: nat)
    requires NO_NODE !in members && i <= |run|
    ensures AllBehind(At(members, run, i))
  {
    if i > 0 {
      AlwaysBehind(members, run, i - 1);
      var hs := Trace(members, run);
      assert SimAt(members, run, hs, i - 1);
      AtNext(members, run, i - 1);
      StepBehind(At(members, run, i - 1), hs[i - 1], run[i - 1]);
    }
  }

  lemma NothingQueued(cfg: Config, n: Node, a: Action)
    requires Quiet(n.core) && (IsInstall(a) || a.TakeSnapshot?)
    ensures Dispatch(cfg, n, a).0.core.committed == []
  {
  }

  lemma AnsweredRipe(s: System, h: Trail, ev: Event, client: nat, v: Id, index: nat)
    requires Sim(s, h) && AllBehind(s)
    requires ReadOk(client, v, index) in Step(s, ev).out && ReadOk(client, v, index) !in s.out
    ensures v in Step(s, ev).nodes && Step(s, ev).nodes[v].up && index <= Step(s, ev).nodes[v].applied
  {
    var cfg, n := Config(ev.node, s.members, ev.peers), s.nodes[ev.node];
    ConfigFits(s, h, ev);
    assert Behind(n);
    ActRipe(h, cfg, ev.node, n, ev.action);
    DispatchedNode(cfg, n, ev.action);
    StaysUp(ev.node, Dispatch(cfg, n, ev.action).0);
  }

  /** In every run, rewinding or not, a read is answered only by a running node that has by then applied
      everything up to the index the read was given. */
  lemma AnsweredOnceApplied(members: set<Id>, run: seq<Event>, j: nat, client: nat, v: Id, index: nat)
    requires NO_NODE !in members && j < |run|
    requires ReadOk(client, v, index) in At(members, run, j + 1).out && ReadOk(client, v, index) !in At(members, run, j).out
    ensures v in At(members, run, j + 1).nodes && At(members, run, j + 1).nodes[v].up
    ensures index <= At(members, run, j + 1).nodes[v].applied
  {
    var hs := Trace(members, run);
    assert SimAt(members, run, hs, j);
    AlwaysBehind(members, run, j);
    AtNext(members, run, j);
    AnsweredRipe(At(members, run, j), hs[j], run[j], client, v, index);
  }

  lemma {:induction false} OutGrowsOver(members: set<Id>, run: seq<Event>, i: nat, j: nat)
    requires i <= j <= |run|
    ensures At(members, run, i).out <= At(members, run, j).out
    decreases j
  {
    if i < j {
      OutGrowsOver(members, run, i, j - 1);
      AtNext(members, run, j - 1);
    }
  }

  /** Whatever a current state machine holds at an index has been committed there. */
  lemma HoldsSettled(s: System, h: Trail, v: Id, i: nat)
    requires Sim(s, h) && v in s.nodes && s.nodes[v].up && Current(s.nodes[v]) && i < |s.nodes[v].sm|
    ensures Settled(h.book, s.nodes[v].sm[i]) && s.nodes[v].sm[i].index == i + 1
  {
    var c := s.nodes[v].core;
    CommittedFacts(s, h, v);
    TrailOpen(h);
    SimNode(s, h, v);
    assert NodeAt(h.book, v);
    var p := Full(c)[..c.lastDelivered];
    var m :| Covers(h.book, c.term, p, m);
    assert CommitAt(h.book, m);
    LogShape(h.book, Full(c), i);
    assert p[i] == h.book.lead[m.term][i];
    assert SettledBy(h.book, p[i], m);
  }

  lemma SaidSettled(s: System, h: Trail, g: Book, w: Id, e: Entry)
    requires Sim(s, h) && Extends(h.book, g) && Applied(w, e) in s.out
    ensures Settled(g, e)
  {
    SimOutput(s, h, Applied(w, e));
    SettledStays(h.book, g, e);
  }

  /** A current state machine that reaches the index of an entry applied anywhere holds that entry. */
  lemma HoldsApplied(members: set<Id>, run: seq<Event>, i: nat, j: nat, v: Id, w: Id, e: Entry)
    requires NO_NODE !in members && i <= |run| && j <= |run| && Applied(w, e) in At(members, run, i).out
    requires v in At(members, run, j).nodes && At(members, run, j).nodes[v].up && Current(At(members, run, j).nodes[v])
    requires 0 < e.index <= |At(members, run, j).nodes[v].sm|
    ensures At(members, run, j).nodes[v].sm[e.index - 1] == e
  {
    var f := At(members, run, j).nodes[v].sm[e.index - 1];
    var a, b, g := Both(members, run, i, j);
    SaidSettled(At(members, run, i), a, g, w, e);
    HoldsSettled(At(members, run, j), b, v, e.index - 1);
    SettledStays(b.book, g, f);
    SettledAgree(g, e, f);
  }

  /** Linearizable reads: in a run without rewinding installs, when the answer to a read is given, the
      answering state machine holds, at its index, every entry that any node had applied before the
      read was asked. */
  lemma ReadsAreLinearizable(members: set<Id>, run: seq<Event>, i: nat, j: nat, client: nat, v: Id, index: nat, w: Id, e: Entry)
    requires NO_NODE !in members && NoRewind(members, run) && OnlyRead(run, i, client) && j < |run|
    requires ReadOk(client, v, index) in At(members, run, j + 1).out && ReadOk(client, v, index) !in At(members, run, j).out
    requires Applied(w, e) in At(members, run, i).out
    ensures v in At(members, run, j + 1).nodes && At(members, run, j + 1).nodes[v].up
    ensures var sm := At(members, run, j + 1).nodes[v].sm; 0 < e.index <= |sm| && sm[e.index - 1] == e
  {
    ReadReleased(members, run, i, j, client, v, index, w, e);
    IntactUpTo(members, run, j + 1);
    assert Intact(At(members, run, j + 1).nodes[v]);
    HoldsApplied(members, run, i, j + 1, v, w, e);
  }

  lemma AppliedNumbered(members: set<Id>, run: seq<Event>, i: nat, w: Id, e: Entry)
    requires NO_NODE !in members && i <= |run| && Applied(w, e) in At(members, run, i).out
    ensures 0 < e.index
  {
    var hs := Trace(members, run);
    assert SimAt(members, run, hs, i);
    SimOutput(At(members, run, i), hs[i], Applied(w, e));
  }

  lemma ReadReleased(members: set<Id>, run: seq<Event>, i: nat, j: nat, client: nat, v: Id, index: nat, w: Id, e: Entry)
    requires NO_NODE !in members && NoRewind(members, run) && OnlyRead(run, i, client) && j < |run|
    requires ReadOk(client, v, index) in At(members, run, j + 1).out && ReadOk(client, v, index) !in At(members, run, j).out
    requires Applied(w, e) in At(members, run, i).out
    ensures v in At(members, run, j + 1).nodes && At(members, run, j + 1).nodes[v].up
    ensures 0 < e.index <= index <= |At(members, run, j + 1).nodes[v].sm|
  {
    AppliedNumbered(members, run, i, w, e);
    AnsweredOnceApplied(members, run, j, client, v, index);
    IntactUpTo(members, run, j + 1);
    assert Intact(At(members, run, j + 1).nodes[v]);
    SaidStays(members, run, j + 1, ReadOk(client, v, index));
    ReadIndexCovers(members, run, i, client, v, index, w, e);
  }

  lemma SaidStays(members: set<Id>, run: seq<Event>, i: nat, o: Output)
    requires i <= |run| && o in At(members, run, i).out
    ensures o in Exec(members, run).out
  {
    OutGrowsOver(members, run, i, |run|);
    assert run[..|run|] == run;
  }
}
