/** The key-value store as its clients see it: replicas agree, and a read sees every acknowledged write. */
module Replicas {
  import opened RaftLog
  import opened RaftCore
  import opened Cluster
  import opened ClusterSim
  import opened Outcomes
  import opened Delivery
  import opened Linearizable
  import Session

  /** The commands among the entries a state machine has applied. */
  function Commands(sm: Log): seq<Bytes>
  {
    if sm == [] then []
    else
      var e := sm[|sm| - 1];
      Commands(sm[..|sm| - 1]) + if e.kind == KIND_NORMAL then [e.command] else []
  }

  /** The map and session table of a node that has applied sm. */
  function Contents(sm: Log): Session.Machine
  {
    Session.Run(Session.EMPTY, Commands(sm))
  }

  lemma {:induction false} CommandsConcat(a: Log, b: Log)
    ensures Commands(a + b) == Commands(a) + Commands(b)
  {
    if b == [] {
      assert a + b == a;
    } else {
      assert (a + b)[..|a + b| - 1] == a + b[..|b| - 1];
      CommandsConcat(a, b[..|b| - 1]);
    }
  }

  lemma {:induction false} RunConcat(m: Session.Machine, a: seq<Bytes>, b: seq<Bytes>)
    ensures Session.Run(m, a + b) == Session.Run(Session.Run(m, a), b)
  {
    if b == [] {
      assert a + b == a;
    } else {
      assert (a + b)[..|a + b| - 1] == a + b[..|b| - 1];
      RunConcat(m, a, b[..|b| - 1]);
    }
  }

  /** Of two nodes, at any moments, the one that has applied less is a past state of the other: the other's
      contents follow from its own by the commands it has yet to apply. */
  lemma ReplicasAgree(members: set<Id>, run: seq<Event>, i: nat, j: nat, v: Id, w: Id)
    requires NO_NODE !in members && i <= |run| && j <= |run| && NoRewind(members, run)
    requires v in At(members, run, i).nodes && At(members, run, i).nodes[v].up
    requires w in At(members, run, j).nodes && At(members, run, j).nodes[w].up
    requires |At(members, run, i).nodes[v].sm| <= |At(members, run, j).nodes[w].sm|
    ensures var x, y := At(members, run, i).nodes[v].sm, At(members, run, j).nodes[w].sm;
            Contents(y) == Session.Run(Contents(x), Commands(y[|x|..]))
  {
    StateMachinesAgree(members, run, i, j, v, w);
    var x, y := At(members, run, i).nodes[v].sm, At(members, run, j).nodes[w].sm;
    assert y == x + y[|x|..];
    CommandsConcat(x, y[|x|..]);
    RunConcat(Session.EMPTY, Commands(x), Commands(y[|x|..]));
  }

  // ---- acknowledged writes ----

  /** Whatever is reported to a proposer as applied has been applied by some node. */
  ghost predicate Backed(out: seq<Output>)
  {
    forall o :: o in out && o.ProposeOk? ==> exists v :: Applied(v, o.entry) in out
  }

  lemma BackedConcat(a: seq<Output>, b: seq<Output>)
    requires Backed(a) && Backed(b)
    ensures Backed(a + b)
  {
    forall o | o in a + b && o.ProposeOk?
      ensures exists v :: Applied(v, o.entry) in a + b
    {
      if o in a {
        var v :| Applied(v, o.entry) in a;
        assert Applied(v, o.entry) in a + b;
      } else {
        var v :| Applied(v, o.entry) in b;
        assert Applied(v, o.entry) in a + b;
      }
    }
  }

  lemma {:induction false} ReleasedBacked(id: Id, ws: seq<AppliedWaiter>, applied: nat)
    ensures forall o :: o in Released(id, ws, applied) ==> o.ReadOk?
  {
    if ws != [] { ReleasedBacked(id, ws[..|ws| - 1], applied); }
  }

  lemma FireBacked(id: Id, w: Work)
    requires Backed(w.out)
    ensures Backed(FireAppliedWaiters(id, w).out) && w.out <= FireAppliedWaiters(id, w).out
  {
    ReleasedBacked(id, w.node.appliedWaiters, w.node.applied);
    BackedConcat(w.out, Released(id, w.node.appliedWaiters, w.node.applied));
  }

  lemma ApplyEntryBacked(id: Id, w: Work, e: Entry)
    requires Backed(w.out)
    ensures Backed(ApplyEntry(id, w, e).out)
  {
    var n := w.node;
    var w0 := Work(n.(sm := n.sm + [e], applied := e.index), w.out + [Applied(id, e)]);
    BackedConcat(w.out, [Applied(id, e)]);
    FireBacked(id, w0);
    var out := FireAppliedWaiters(id, w0).out;
    assert Applied(id, e) in w0.out && Applied(id, e) in out;
    if e.index in n.waiters {
      var p := n.waiters[e.index];
      OneMoreBacked(out, if p.term == e.term then ProposeOk(p.client, p.command, e) else ProposeLost(p.client, e.index, p.term), id, e);
    }
  }

  lemma OneMoreBacked(out: seq<Output>, o: Output, id: Id, e: Entry)
    requires Backed(out) && Applied(id, e) in out && (o.ProposeOk? ==> o.entry == e)
    ensures Backed(out + [o])
  {
    forall p | p in out + [o] && p.ProposeOk?
      ensures exists v :: Applied(v, p.entry) in out + [o]
    {
      if p in out {
        var v :| Applied(v, p.entry) in out;
        assert Applied(v, p.entry) in out + [o];
      } else {
        assert Applied(id, p.entry) in out + [o];
      }
    }
  }

  lemma {:induction false} ApplyAllBacked(id: Id, w: Work, es: Log)
    requires Backed(w.out)
    ensures Backed(ApplyAll(id, w, es).out)
  {
    if es != [] {
      ApplyAllBacked(id, w, es[..|es| - 1]);
      ApplyEntryBacked(id, ApplyAll(id, w, es[..|es| - 1]), es[|es| - 1]);
    }
  }

  lemma {:induction false} ResolveAllBacked(id: Id, w: Work, rs: seq<ReadOutcome>)
    requires Backed(w.out)
    ensures Backed(ResolveAll(id, w, rs).out)
  {
    if rs != [] {
      ResolveAllBacked(id, w, rs[..|rs| - 1]);
      var w1, r := ResolveAll(id, w, rs[..|rs| - 1]), rs[|rs| - 1];
      if r.id in w1.node.readWaiters {
        BackedConcat(w1.out, [ReadLost(w1.node.readWaiters[r.id])]);
        BackedConcat(w1.out, [ReadOk(w1.node.readWaiters[r.id], id, r.index)]);
      }
    }
  }

  lemma AfterStepBacked(id: Id, n: Node)
    ensures Backed(AfterStep(id, n).out)
  {
    var w := Restore(id, n);
    if n.core.restore.Some? {
      FireBacked(id, Work(n.(sm := n.core.restore.value, applied := n.core.snap.lastIndex), []));
    }
    ApplyAllBacked(id, w, n.core.committed);
    ResolveAllBacked(id, ApplyAll(id, w, n.core.committed), n.core.readOutcomes);
  }

  lemma StepBacked(s: System, ev: Event)
    requires Backed(s.out)
    ensures Backed(Step(s, ev).out)
  {
    if Enabled(s, ev) && !ev.action.Restart? {
      var n1 := Dispatch(Config(ev.node, s.members, ev.peers), s.nodes[ev.node], ev.action).0;
      AfterStepBacked(ev.node, n1);
      BackedConcat(s.out, AfterStep(ev.node, n1).out);
    }
  }

  lemma {:induction false} AlwaysBacked(members: set<Id>, run: seq<Event>)
    ensures Backed(Exec(members, run).out)
  {
    if run != [] {
      AlwaysBacked(members, run[..|run| - 1]);
      StepBacked(Exec(members, run[..|run| - 1]), run[|run| - 1]);
    }
  }

  /** An acknowledged write is seen by every read asked after the acknowledgement: when the read is
      answered, the answering node's contents are those after the write, and then some. */
  lemma ReadsSeeAcknowledgedWrites(members: set<Id>, run: seq<Event>, i: nat, j: nat, reader: nat, v: Id, index: nat,
                                   writer: nat, command: Bytes, e: Entry)
    requires NO_NODE !in members && NoRewind(members, run) && OnlyRead(run, i, reader) && j < |run|
    requires ReadOk(reader, v, index) in At(members, run, j + 1).out && ReadOk(reader, v, index) !in At(members, run, j).out
    requires ProposeOk(writer, command, e) in At(members, run, i).out
    ensures v in At(members, run, j + 1).nodes && At(members, run, j + 1).nodes[v].up
    ensures var sm := At(members, run, j + 1).nodes[v].sm;
            && 0 < e.index <= |sm|
            && Contents(sm) == Session.Run(Session.Deliver(Contents(sm[..e.index - 1]), command), Commands(sm[e.index..]))
  {
    var w := AppliedBefore(members, run, i, writer, command, e);
    ReadsAreLinearizable(members, run, i, j, reader, v, index, w, e);
    SplitAt(At(members, run, j + 1).nodes[v].sm, e.index - 1);
  }

  lemma AppliedBefore(members: set<Id>, run: seq<Event>, i: nat, client: nat, command: Bytes, e: Entry) returns (w: Id)
    requires NO_NODE !in members && i <= |run| && ProposeOk(client, command, e) in At(members, run, i).out
    ensures Applied(w, e) in At(members, run, i).out && e.kind == KIND_NORMAL && e.command == command
  {
    AlwaysBacked(members, run[..i]);
    w :| Applied(w, e) in At(members, run, i).out;
    ProposeOkIsTrue(members, run, i, i, client, command, e, w, e);
  }

  lemma SplitAt(sm: Log, k: nat)
    requires k < |sm| && sm[k].kind == KIND_NORMAL
    ensures Contents(sm) == Session.Run(Session.Deliver(Contents(sm[..k]), sm[k].command), Commands(sm[k + 1..]))
  {
    assert sm == sm[..k + 1] + sm[k + 1..] && sm[..k + 1][..k] == sm[..k];
    CommandsConcat(sm[..k + 1], sm[k + 1..]);
    RunConcat(Session.EMPTY, Commands(sm[..k + 1]), Commands(sm[k + 1..]));
    RunConcat(Session.EMPTY, Commands(sm[..k]), [sm[k].command]);
    assert Commands(sm[..k + 1]) == Commands(sm[..k]) + [sm[k].command];
    OneCommand(Contents(sm[..k]), sm[k].command);
  }

  lemma OneCommand(m: Session.Machine, b: Bytes)
    ensures Session.Run(m, [b]) == Session.Deliver(m, b)
  {
    assert [b][..0] == [];
  }
}
