/** What reaches the state machines, and the one call that can break its sequence. */
module Delivery {
  import opened RaftLog
  import opened RaftCore
  import opened Cluster
  import opened Ledger
  import opened Trail
  import opened CoreSim
  import opened SnapshotSim
  import opened ClusterSim
  import opened Outcomes

  // ---- cores: what is queued is what the cursor moved over ----

  predicate IsInstall(a: Action)
  {
    a.Receive? && a.msg.AskInstall?
  }

  lemma HandleSpans(cfg: Config, c: State, m: Message, recent: bool)
    requires !m.AskInstall?
    ensures Spans(c, Handle(cfg, c, m, recent).0)
  {
  }

  lemma DispatchSpans(cfg: Config, n: Node, a: Action)
    requires !IsInstall(a) && !a.TakeSnapshot?
    ensures Spans(n.core, Dispatch(cfg, n, a).0.core)
  {
    if a.Receive? {
      HandleSpans(cfg, n.core, a.msg, a.recent);
    }
  }

  // ---- the event loop: what is queued is what is applied ----

  /** The entries a run of outputs reports as applied, in order. */
  function AppliedIn(out: seq<Output>): Log
  {
    if out == [] then []
    else AppliedIn(out[..|out| - 1]) + (var o := out[|out| - 1]; if o.Applied? then [o.entry] else [])
  }

  lemma {:induction false} AppliedInConcat(a: seq<Output>, b: seq<Output>)
    ensures AppliedIn(a + b) == AppliedIn(a) + AppliedIn(b)
  {
    if b == [] {
      assert a + b == a;
    } else {
      assert (a + b)[..|a + b| - 1] == a + b[..|b| - 1];
      AppliedInConcat(a, b[..|b| - 1]);
    }
  }

  lemma {:induction false} ReleasedAppliesNone(id: Id, ws: seq<AppliedWaiter>, applied: nat)
    ensures AppliedIn(Released(id, ws, applied)) == []
  {
    if ws != [] {
      ReleasedAppliesNone(id, ws[..|ws| - 1], applied);
      AppliedInConcat(Released(id, ws[..|ws| - 1], applied),
                      if applied >= ws[|ws| - 1].index then [ReadOk(ws[|ws| - 1].client, id, ws[|ws| - 1].index)] else []);
    }
  }

  /** w1 continues w, having applied es. */
  predicate Applies(w: Work, w1: Work, es: Log)
  {
    && w1.node.sm == w.node.sm + es && AppliedIn(w1.out) == AppliedIn(w.out) + es
    && w1.node.applied == if es == [] then w.node.applied else es[|es| - 1].index
  }

  lemma FireApplies(id: Id, w: Work)
    ensures Applies(w, FireAppliedWaiters(id, w), [])
  {
    ReleasedAppliesNone(id, w.node.appliedWaiters, w.node.applied);
    AppliedInConcat(w.out, Released(id, w.node.appliedWaiters, w.node.applied));
  }

  lemma ApplyEntryApplies(id: Id, w: Work, e: Entry)
    ensures Applies(w, ApplyEntry(id, w, e), [e])
  {
    var n := w.node;
    var w0 := Work(n.(sm := n.sm + [e], applied := e.index), w.out + [Applied(id, e)]);
    AppliedInConcat(w.out, [Applied(id, e)]);
    FireApplies(id, w0);
    var w1 := FireAppliedWaiters(id, w0);
    assert AppliedIn([Applied(id, e)]) == [e];
    if e.index in n.waiters {
      var p := n.waiters[e.index];
      var o := if p.term == e.term then ProposeOk(p.client, p.command, e) else ProposeLost(p.client, e.index, p.term);
      AppliedInConcat(w1.out, [o]);
      assert AppliedIn([o]) == [];
    }
  }

  lemma {:induction false} ApplyAllApplies(id: Id, w: Work, es: Log)
    ensures Applies(w, ApplyAll(id, w, es), es)
  {
    if es != [] {
      ApplyAllApplies(id, w, es[..|es| - 1]);
      ApplyEntryApplies(id, ApplyAll(id, w, es[..|es| - 1]), es[|es| - 1]);
      assert es == es[..|es| - 1] + [es[|es| - 1]];
    }
  }

  lemma {:induction false} ResolveAllApplies(id: Id, w: Work, rs: seq<ReadOutcome>)
    ensures Applies(w, ResolveAll(id, w, rs), [])
  {
    if rs != [] {
      ResolveAllApplies(id, w, rs[..|rs| - 1]);
      var w1, r := ResolveAll(id, w, rs[..|rs| - 1]), rs[|rs| - 1];
      if r.id in w1.node.readWaiters {
        var client := w1.node.readWaiters[r.id];
        AppliedInConcat(w1.out, [ReadLost(client)]);
        AppliedInConcat(w1.out, [ReadOk(client, id, r.index)]);
        assert AppliedIn([ReadLost(client)]) == [] && AppliedIn([ReadOk(client, id, r.index)]) == [];
      }
    }
  }

  lemma AfterStepApplies(id: Id, n: Node)
    requires n.core.restore.None?
    ensures Applies(Work(n, []), AfterStep(id, n), n.core.committed)
  {
    var w := Work(n, []);
    ApplyAllApplies(id, w, n.core.committed);
    ResolveAllApplies(id, ApplyAll(id, w, n.core.committed), n.core.readOutcomes);
  }

  lemma AfterStepRestores(id: Id, n: Node)
    requires n.core.restore.Some? && n.core.committed == []
    ensures AfterStep(id, n).node.sm == n.core.restore.value && AfterStep(id, n).node.applied == n.core.snap.lastIndex
    ensures AppliedIn(AfterStep(id, n).out) == []
  {
    var w := Work(n.(sm := n.core.restore.value, applied := n.core.snap.lastIndex), []);
    FireApplies(id, w);
    ResolveAllApplies(id, FireAppliedWaiters(id, w), n.core.readOutcomes);
  }

  // ---- one step ----

  /** The delivered part of a log never changes. */
  lemma DeliveredKept(h: Trail, k: Trail, v: Id, c: State, d: State)
    requires TrailInv(h) && Moves(h, k, v) && CoreOK(h, v, c) && CoreOK(k, v, d) && c.lastDelivered <= d.lastDelivered
    ensures Full(c)[..c.lastDelivered] <= Full(d)[..d.lastDelivered]
  {
    CoreOpen(h, v, c);
    CoreOpen(k, v, d);
    TrailOpen(k);
    Grew(h, k, v);
    GrowthOpen(h, k);
    SafeStays(h.book, k.book, c.term, c.term, Full(c)[..c.lastDelivered]);
    SafeAgree(k.book, c.term, Full(c)[..c.lastDelivered], d.term, Full(d)[..d.lastDelivered]);
  }

  /** What a step that neither installs nor compacts hands to the state machine: the stretch of the log
      from the old delivery cursor to the new one. */
  lemma HandsOver(h: Trail, k: Trail, v: Id, c: State, d: State)
    requires TrailInv(h) && Moves(h, k, v) && CoreOK(h, v, c) && Quiet(c) && CoreOK(k, v, d) && Spans(c, d)
    ensures c.lastDelivered <= d.lastDelivered && d.committed == Full(d)[c.lastDelivered..d.lastDelivered]
    ensures Full(d)[..c.lastDelivered] == Full(c)[..c.lastDelivered]
  {
    CoreOpen(k, v, d);
    DeliveredKept(h, k, v, c, d);
  }

  lemma LastOfSlice(h: Trail, v: Id, d: State, lo: nat)
    requires TrailInv(h) && CoreOK(h, v, d) && lo < d.lastDelivered
    ensures var es := Full(d)[lo..d.lastDelivered]; es[|es| - 1].index == d.lastDelivered
  {
    TrailOpen(h);
    assert NodeAt(h.book, v);
    LogShape(h.book, Full(d), d.lastDelivered - 1);
  }

  /** A running node whose state machine has applied exactly its delivered prefix. */
  predicate Current(n: Node)
  {
    && n.applied == n.core.lastDelivered <= |Full(n.core)|
    && n.sm == Full(n.core)[..n.core.lastDelivered]
  }

  predicate TrueImage(snap: Snapshot)
  {
    snap.image == snap.covered
  }

  lemma Drains(h: Trail, k: Trail, v: Id, n: Node, d: State, n1: Node)
    requires TrailInv(h) && Moves(h, k, v) && CoreOK(h, v, n.core) && Quiet(n.core) && CoreOK(k, v, d) && Spans(n.core, d)
    requires n1.core == d && n1.sm == n.sm && n1.applied == n.applied
    ensures n.core.lastDelivered <= d.lastDelivered
    ensures var m, x := AfterStep(v, n1).node, Full(d)[n.core.lastDelivered..d.lastDelivered];
            && m.sm == n.sm + x && AppliedIn(AfterStep(v, n1).out) == x
            && m.applied == (if n.core.lastDelivered == d.lastDelivered then n.applied else d.lastDelivered)
            && m.core.snap == n.core.snap && Full(m.core) == Full(d) && m.core.lastDelivered == d.lastDelivered
  {
    HandsOver(h, k, v, n.core, d);
    if n.core.lastDelivered < d.lastDelivered {
      LastOfSlice(k, v, d, n.core.lastDelivered);
    }
    DrainsTo(v, n1, Full(d)[n.core.lastDelivered..d.lastDelivered]);
  }

  lemma DrainsTo(v: Id, n: Node, es: Log)
    requires n.core.restore.None? && n.core.committed == es
    ensures var m := AfterStep(v, n).node;
            && m.sm == n.sm + es && AppliedIn(AfterStep(v, n).out) == es
            && m.applied == (if es == [] then n.applied else es[|es| - 1].index)
            && m.core.snap == n.core.snap && Full(m.core) == Full(n.core) && m.core.lastDelivered == n.core.lastDelivered
  {
    AfterStepApplies(v, n);
  }

  lemma DrainsCurrent(h: Trail, k: Trail, v: Id, n: Node, d: State, n1: Node)
    requires TrailInv(h) && Moves(h, k, v) && CoreOK(h, v, n.core) && Quiet(n.core) && CoreOK(k, v, d) && Spans(n.core, d)
    requires n1.core == d && n1.sm == n.sm && n1.applied == n.applied && Current(n)
    ensures Current(AfterStep(v, n1).node) && AfterStep(v, n1).node.core.snap == n.core.snap
  {
    Drains(h, k, v, n, d, n1);
    HandsOver(h, k, v, n.core, d);
    Adjoin(Full(d), 0, n.core.lastDelivered, d.lastDelivered);
  }

  // ---- the whole cluster ----

  predicate Intact(n: Node)
  {
    TrueImage(n.core.snap) && (n.up ==> Current(n))
  }

  /** Every running state machine has applied exactly its node's delivered prefix, in order and without
      gaps, and every snapshot, stored or on its way, is an image of exactly the prefix it replaces. */
  predicate AllIntact(s: System)
  {
    && (forall v :: v in s.nodes ==> Intact(s.nodes[v]))
    && (forall m :: m in s.net && m.AskInstall? ==> TrueImage(m.ins.snap))
  }

  /** An acceptable snapshot that lies above the node's commit index but below what it has delivered. */
  predicate Rewinds(c: State, q: SnapRequest)
  {
    q.term >= c.term && !StaleSnapshot(c, q.snap) && q.snap.lastIndex < c.lastDelivered
  }

  predicate RewindsAt(s: System, ev: Event)
  {
    Enabled(s, ev) && IsInstall(ev.action) && Rewinds(s.nodes[ev.node].core, ev.action.msg.ins)
  }

  /** The node and its outbox after a dispatched action that does not stop it. */
  ghost predicate Finished(v: Id, n1: Node)
  {
    && Intact(AfterStep(v, n1).node)
    && forall m :: m in n1.core.outbox && m.AskInstall? ==> TrueImage(m.ins.snap)
  }

  lemma OwnSnapshots(k: Trail, v: Id, d: State)
    requires CoreOK(k, v, d) && TrueImage(d.snap)
    ensures forall m :: m in d.outbox && m.AskInstall? ==> TrueImage(m.ins.snap)
  {
    CoreOpen(k, v, d);
    forall m | m in d.outbox && m.AskInstall?
      ensures TrueImage(m.ins.snap)
    {
      assert CarriesOwn(d, m);
    }
  }

  lemma SpanningFinish(h: Trail, k: Trail, v: Id, n: Node, n1: Node)
    requires TrailInv(h) && Moves(h, k, v) && NodeOK(h, v, n) && n.up && Intact(n)
    requires CoreOK(k, v, n1.core) && Spans(n.core, n1.core) && n1.sm == n.sm && n1.applied == n.applied
    ensures Finished(v, n1)
  {
    DrainsCurrent(h, k, v, n, n1.core, n1);
    OwnSnapshots(k, v, n1.core);
  }

  lemma CompactFinish(h: Trail, v: Id, n: Node, n1: Node)
    requires TrailInv(h) && NodeOK(h, v, n) && n.up && Intact(n) && n1 == n.(core := Compact(n.core, n.applied, n.sm))
    ensures Finished(v, n1)
  {
    var c, d := n.core, n1.core;
    CompactOK(h, v, c, n.applied, n.sm);
    if c.snap.lastIndex < n.applied <= c.lastDelivered {
      assert d.snap.covered == Full(c)[..n.applied];
    }
    AfterStepApplies(v, n1);
    OwnSnapshots(h, v, d);
  }

  lemma InstallKeeps(c: State, q: SnapRequest)
    requires q.term < c.term || StaleSnapshot(c, q.snap)
    ensures Spans(c, HandleInstallSnapshot(c, q).0)
  {
  }

  lemma InstallTakes(c: State, q: SnapRequest)
    requires q.term >= c.term && !StaleSnapshot(c, q.snap)
    ensures var d := HandleInstallSnapshot(c, q).0;
            && d.snap == q.snap && d.restore == Some(q.snap.image) && d.committed == c.committed
            && d.lastDelivered == if c.lastDelivered < q.snap.lastIndex then q.snap.lastIndex else c.lastDelivered
  {
  }

  /** Installing a snapshot leaves a current node current if and only if it does not rewind. */
  lemma InstallFinish(h: Trail, k: Trail, v: Id, n: Node, q: SnapRequest)
    requires TrailInv(h) && Moves(h, k, v) && NodeOK(h, v, n) && n.up && Intact(n) && TrueImage(q.snap)
    requires CoreOK(k, v, HandleInstallSnapshot(n.core, q).0)
    ensures var n1 := n.(core := HandleInstallSnapshot(n.core, q).0);
            if Rewinds(n.core, q) then !Current(AfterStep(v, n1).node) && AfterStep(v, n1).node.up else Finished(v, n1)
  {
    var d := HandleInstallSnapshot(n.core, q).0;
    var n1 := n.(core := d);
    if q.term < n.core.term || StaleSnapshot(n.core, q.snap) {
      InstallKeeps(n.core, q);
      SpanningFinish(h, k, v, n, n1);
    } else {
      InstallTakes(n.core, q);
      AfterStepRestores(v, n1);
      StaysUp(v, n1);
      OwnSnapshots(k, v, d);
      assert Full(d)[..q.snap.lastIndex] == q.snap.covered;
    }
  }

  lemma OnDiskKeepsSnapshot(cfg: Config, n: Node, crash: Crash)
    ensures OnDisk(cfg, n, crash).snap == n.core.snap
  {
  }

  lemma RestartIntact(s: System, h: Trail, ev: Event)
    requires Sim(s, h) && AllIntact(s) && Enabled(s, ev) && ev.action.Restart?
    ensures AllIntact(Step(s, ev))
  {
    var n, cfg := s.nodes[ev.node], Config(ev.node, s.members, ev.peers);
    SimNode(s, h, ev.node);
    assert Intact(n);
    OnDiskKeepsSnapshot(cfg, n, ev.action.crash);
    var m := Reboot(OnDisk(cfg, n, ev.action.crash));
    assert Full(m.core)[..m.core.snap.lastIndex] == m.core.snap.covered;
    ReplaceIntact(s, ev.node, m);
  }

  lemma ReplaceIntact(s: System, v: Id, n: Node)
    requires AllIntact(s) && Intact(n)
    ensures AllIntact(Replace(s, v, n))
  {
  }

  lemma FinishIntact(s: System, v: Id, n1: Node, reply: seq<Message>)
    requires AllIntact(s) && Finished(v, n1) && forall m :: m in reply ==> !m.AskInstall?
    ensures AllIntact(Finish(s, v, n1, reply))
  {
  }

  lemma FinishBroken(s: System, v: Id, n1: Node, reply: seq<Message>)
    requires AfterStep(v, n1).node.up && !Current(AfterStep(v, n1).node)
    ensures !AllIntact(Finish(s, v, n1, reply))
  {
    assert !Intact(Finish(s, v, n1, reply).nodes[v]);
  }

  lemma RepliesAreAnswers(cfg: Config, n: Node, a: Action)
    ensures forall m :: m in Dispatch(cfg, n, a).1 ==> !m.AskInstall?
  {
  }

  lemma DispatchedNode(cfg: Config, n: Node, a: Action)
    ensures var n1 := Dispatch(cfg, n, a).0; n1.sm == n.sm && n1.applied == n.applied && n1.up == n.up
  {
  }

  /** A dispatched action other than an install leaves a node that will be intact once drained. */
  lemma DispatchFinished(h: Trail, k: Trail, cfg: Config, v: Id, n: Node, a: Action)
    requires TrailInv(h) && Moves(h, k, v) && NodeOK(h, v, n) && n.up && Intact(n) && !IsInstall(a)
    requires CoreOK(k, v, Dispatch(cfg, n, a).0.core)
    ensures Finished(v, Dispatch(cfg, n, a).0)
  {
    if a.TakeSnapshot? {
      CompactFinish(h, v, n, Dispatch(cfg, n, a).0);
    } else {
      DispatchSpans(cfg, n, a);
      DispatchedNode(cfg, n, a);
      SpanningFinish(h, k, v, n, Dispatch(cfg, n, a).0);
    }
  }

  lemma HaltedIntact(cfg: Config, n: Node, a: Action)
    requires Intact(n) && a.Receive? && a.msg.AskAppend?
    ensures Intact(Dispatch(cfg, n, a).0.(up := false))
  {
    DispatchSpans(cfg, n, a);
  }

  lemma ActIntact(s: System, h: Trail, ev: Event)
    requires Sim(s, h) && AllIntact(s) && Enabled(s, ev) && !ev.action.Restart?
    ensures AllIntact(Step(s, ev)) <==> !RewindsAt(s, ev)
  {
    var cfg, n, v, a := Config(ev.node, s.members, ev.peers), s.nodes[ev.node], ev.node, ev.action;
    ConfigFits(s, h, ev);
    assert Intact(n);
    var k := DispatchOK(h, cfg, v, n, a);
    var (n1, reply) := Dispatch(cfg, n, a);
    if n1.core.halted {
      HaltedIntact(cfg, n, a);
      ReplaceIntact(s, v, n1.(up := false));
    } else {
      ActFinishes(s, h, k, cfg, v, n, a);
    }
  }

  lemma ActFinishes(s: System, h: Trail, k: Trail, cfg: Config, v: Id, n: Node, a: Action)
    requires AllIntact(s) && TrailInv(h) && Moves(h, k, v) && NodeOK(h, v, n) && n.up && Intact(n)
    requires CoreOK(k, v, Dispatch(cfg, n, a).0.core) && (IsInstall(a) ==> TrueImage(a.msg.ins.snap))
    ensures AllIntact(Finish(s, v, Dispatch(cfg, n, a).0, Dispatch(cfg, n, a).1)) <==> !(IsInstall(a) && Rewinds(n.core, a.msg.ins))
  {
    var n1, reply := Dispatch(cfg, n, a).0, Dispatch(cfg, n, a).1;
    RepliesAreAnswers(cfg, n, a);
    if IsInstall(a) {
      InstallFinish(h, k, v, n, a.msg.ins);
      if Rewinds(n.core, a.msg.ins) {
        FinishBroken(s, v, n1, reply);
      } else {
        FinishIntact(s, v, n1, reply);
      }
    } else {
      DispatchFinished(h, k, cfg, v, n, a);
      FinishIntact(s, v, n1, reply);
    }
  }

  /** The only event that breaks an intact cluster is a rewinding install, and it always does. */
  lemma StepIntact(s: System, h: Trail, ev: Event)
    requires Sim(s, h) && AllIntact(s)
    ensures AllIntact(Step(s, ev)) <==> !RewindsAt(s, ev)
  {
    if Enabled(s, ev) {
      if ev.action.Restart? {
        RestartIntact(s, h, ev);
      } else {
        ActIntact(s, h, ev);
      }
    }
  }

  ghost predicate IntactAt(members: set<Id>, run: seq<Event>, i: nat)
  {
    i <= |run| ==> AllIntact(At(members, run, i))
  }

  ghost predicate Unrewound(members: set<Id>, run: seq<Event>, i: nat)
  {
    i < |run| ==> !RewindsAt(At(members, run, i), run[i])
  }

  /** No event of the run installs a rewinding snapshot. */
  ghost predicate NoRewind(members: set<Id>, run: seq<Event>)
  {
    forall i: nat {:trigger Unrewound(members, run, i)} :: Unrewound(members, run, i)
  }

  ghost predicate AlwaysIntact(members: set<Id>, run: seq<Event>)
  {
    forall i: nat {:trigger IntactAt(members, run, i)} :: IntactAt(members, run, i)
  }

  lemma NextIntact(members: set<Id>, run: seq<Event>, i: nat)
    requires NO_NODE !in members && i < |run| && IntactAt(members, run, i)
    ensures IntactAt(members, run, i + 1) <==> Unrewound(members, run, i)
  {
    var hs := Trace(members, run);
    assert SimAt(members, run, hs, i);
    AtNext(members, run, i);
    StepIntact(At(members, run, i), hs[i], run[i]);
  }

  lemma {:induction false} IntactUpTo(members: set<Id>, run: seq<Event>, i: nat)
    requires NO_NODE !in members && NoRewind(members, run) && i <= |run|
    ensures IntactAt(members, run, i)
  {
    if i == 0 {
      assert run[..0] == [];
    } else {
      IntactUpTo(members, run, i - 1);
      assert Unrewound(members, run, i - 1);
      NextIntact(members, run, i - 1);
    }
  }

  /** Exactly when deliveries are gapless: in a run, every node's state machine holds exactly the prefix
      its core has delivered, at every moment, if and only if no event of the run is an install of a
      snapshot above the receiver's commit index and below its delivery cursor. */
  lemma GaplessIff(members: set<Id>, run: seq<Event>)
    requires NO_NODE !in members
    ensures AlwaysIntact(members, run) <==> NoRewind(members, run)
  {
    if NoRewind(members, run) {
      forall i: nat
        ensures IntactAt(members, run, i)
      {
        if i <= |run| { IntactUpTo(members, run, i); }
      }
    }
    if AlwaysIntact(members, run) {
      forall i: nat
        ensures Unrewound(members, run, i)
      {
        if i < |run| {
          assert IntactAt(members, run, i) && IntactAt(members, run, i + 1);
          NextIntact(members, run, i);
        }
      }
    }
  }
}
