/** What clients may conclude from what the nodes tell them, in every run. */
module Outcomes {
  import opened RaftLog
  import opened RaftCore
  import opened Cluster
  import opened Ledger
  import opened Trail
  import opened ClusterSim
  import opened Safety

  // ---- applied entries and proposals ----

  lemma SettledIsSafe(g: Book, e: Entry, c: Commit)
    requires SettledBy(g, e, c)
    ensures Safe(g, c.term, g.lead[c.term][..e.index])
  {
    assert Covers(g, c.term, g.lead[c.term][..e.index], c);
  }

  /** At most one entry is ever committed at an index. */
  lemma SettledAgree(g: Book, e: Entry, f: Entry)
    requires Inv(g) && Settled(g, e) && Settled(g, f) && e.index == f.index
    ensures e == f
  {
    var c :| SettledBy(g, e, c);
    var d :| SettledBy(g, f, d);
    SettledIsSafe(g, e, c);
    SettledIsSafe(g, f, d);
    var p, q := g.lead[c.term][..e.index], g.lead[d.term][..e.index];
    SafeAgree(g, c.term, p, d.term, q);
    assert e == p[e.index - 1] && f == q[e.index - 1];
  }

  /** What was said by moment i, seen from a later book. */
  lemma SaidAt(members: set<Id>, run: seq<Event>, i: nat, j: nat, o: Output, q: Output) returns (h: Trail)
    requires NO_NODE !in members && i <= |run| && j <= |run|
    requires o in At(members, run, i).out && q in At(members, run, j).out
    ensures TrailInv(h) && OutputOK(h, o) && OutputOK(h, q)
  {
    var hs := Trace(members, run);
    var n := |run|;
    assert SimAt(members, run, hs, i) && SimAt(members, run, hs, j) && SimAt(members, run, hs, n);
    TraceGrows(members, run, hs, i, n);
    TraceGrows(members, run, hs, j, n);
    SimOutput(At(members, run, i), hs[i], o);
    SimOutput(At(members, run, j), hs[j], q);
    OutputStays(hs[i], hs[n], o);
    OutputStays(hs[j], hs[n], q);
    h := hs[n];
  }

  /** State Machine Safety: no two nodes, in any of their incarnations, ever apply different entries at
      one index. */
  lemma StateMachineSafety(members: set<Id>, run: seq<Event>, i: nat, j: nat, v: Id, w: Id, e: Entry, f: Entry)
    requires NO_NODE !in members && i <= |run| && j <= |run|
    requires Applied(v, e) in At(members, run, i).out && Applied(w, f) in At(members, run, j).out
    requires e.index == f.index
    ensures e == f
  {
    var h := SaidAt(members, run, i, j, Applied(v, e), Applied(w, f));
    TrailOpen(h);
    SettledAgree(h.book, e, f);
  }

  /** A proposal reported as applied carries the proposer's command, and is the only entry any node
      ever applies at its index. */
  lemma ProposeOkIsTrue(members: set<Id>, run: seq<Event>, i: nat, j: nat, client: nat, command: Bytes, e: Entry, w: Id, f: Entry)
    requires NO_NODE !in members && i <= |run| && j <= |run|
    requires ProposeOk(client, command, e) in At(members, run, i).out
    ensures e.kind == KIND_NORMAL && e.command == command
    ensures Applied(w, f) in At(members, run, j).out && f.index == e.index ==> f == e
  {
    var o := ProposeOk(client, command, e);
    var h := SaidAt(members, run, i, i, o, o);
    if Applied(w, f) in At(members, run, j).out && f.index == e.index {
      var k := SaidAt(members, run, i, j, o, Applied(w, f));
      TrailOpen(k);
      SettledAgree(k.book, e, f);
    }
  }

  /** A proposal reported as lost is applied by no node, before or after the report. */
  lemma ProposeLostIsTrue(members: set<Id>, run: seq<Event>, i: nat, j: nat, client: nat, index: nat, term: nat, w: Id, f: Entry)
    requires NO_NODE !in members && i <= |run| && j <= |run|
    requires ProposeLost(client, index, term) in At(members, run, i).out && Applied(w, f) in At(members, run, j).out
    ensures !(f.index == index && f.term == term)
  {
    var h := SaidAt(members, run, i, j, ProposeLost(client, index, term), Applied(w, f));
    TrailOpen(h);
    var e :| Settled(h.book, e) && e.index == index && e.term != term;
    if f.index == index {
      SettledAgree(h.book, e, f);
    }
  }

  // ---- reads ----

  /** The event at which a registration entered the trail. */
  lemma {:induction false} RegisteredAt(members: set<Id>, run: seq<Event>, hs: seq<Trail>, r: Reg, n: nat) returns (i: nat)
    requires Traces(members, run, hs) && |hs| == |run| + 1 && hs[0].regs == {} && n <= |run| && r in hs[n].regs
    ensures i < n && run[i].action == ClientRead(r.client) && r.commits == hs[i].book.commits
  {
    if r in hs[n - 1].regs {
      i := RegisteredAt(members, run, hs, r, n - 1);
    } else {
      i := n - 1;
      assert StepAt(run, hs, i);
    }
  }

  lemma CommitsBound(h: Trail, t: nat, p: Log, index: nat)
    requires Safe(h.book, t, p) && forall c :: c in h.book.commits ==> c.len <= index
    ensures |p| <= index
  {
    if p != [] {
      var c :| Covers(h.book, t, p, c);
    }
  }

  /** Event i is client's one read. */
  predicate OnlyRead(run: seq<Event>, i: nat, client: nat)
  {
    i < |run| && forall k :: 0 <= k < |run| ==> (run[k].action == ClientRead(client) <==> k == i)
  }

  lemma ReadCovers(members: set<Id>, run: seq<Event>, i: nat, client: nat, v: Id, index: nat) returns (h: Trail)
    requires NO_NODE !in members && OnlyRead(run, i, client) && ReadOk(client, v, index) in Exec(members, run).out
    ensures Sim(At(members, run, i), h) && forall c :: c in h.book.commits ==> c.len <= index
  {
    var n := |run|;
    var hs := Trace(members, run);
    assert SimAt(members, run, hs, n) && run[..n] == run;
    SimOutput(At(members, run, n), hs[n], ReadOk(client, v, index));
    var r :| GoodReg(hs[n], client, index, r);
    var k := RegisteredAt(members, run, hs, r, n);
    assert SimAt(members, run, hs, i);
    h := hs[i];
  }

  /** ReadIndex: a read that is answered is answered at an index at or above everything that any node
      had committed or delivered, and every entry any node had ever applied, when it was asked. */
  lemma ReadIndexCovers(members: set<Id>, run: seq<Event>, i: nat, client: nat, v: Id, index: nat, w: Id, e: Entry)
    requires NO_NODE !in members && OnlyRead(run, i, client) && ReadOk(client, v, index) in Exec(members, run).out
    ensures w in At(members, run, i).nodes && At(members, run, i).nodes[w].up ==>
              var c := At(members, run, i).nodes[w].core; c.commitIndex <= index && c.lastDelivered <= index
    ensures Applied(w, e) in At(members, run, i).out ==> e.index <= index
  {
    var h := ReadCovers(members, run, i, client, v, index);
    var s := At(members, run, i);
    if w in s.nodes && s.nodes[w].up {
      var c := s.nodes[w].core;
      CommittedFacts(s, h, w);
      CommitsBound(h, c.term, Full(c)[..c.commitIndex], index);
      CommitsBound(h, c.term, Full(c)[..c.lastDelivered], index);
    }
    if Applied(w, e) in s.out {
      SimOutput(s, h, Applied(w, e));
    }
  }

  // ---- halting ----

  /** A running node stops in a step if and only if it receives, from the leader of its term or a later
      one, a request that starts at index 1 although the node has compacted past index 1. No other
      call in any reachable state leaves its log's bounds or refuses to go on. */
  lemma HaltsIffRefusing(members: set<Id>, run: seq<Event>, i: nat)
    requires NO_NODE !in members && i < |run| && Enabled(At(members, run, i), run[i]) && !run[i].action.Restart?
    ensures var s, a := At(members, run, i), run[i].action;
            run[i].node in At(members, run, i + 1).nodes &&
            (!At(members, run, i + 1).nodes[run[i].node].up <==> a.Receive? && MustRefuse(s.nodes[run[i].node].core, a.msg))
  {
    var hs := Trace(members, run);
    var s, ev := At(members, run, i), run[i];
    assert SimAt(members, run, hs, i);
    AtNext(members, run, i);
    ConfigFits(s, hs[i], ev);
    var cfg, n := Config(ev.node, s.members, ev.peers), s.nodes[ev.node];
    var k := DispatchOK(hs[i], cfg, ev.node, n, ev.action);
    StaysUp(ev.node, Dispatch(cfg, n, ev.action).0);
  }

  lemma {:induction false} StaysUp(v: Id, n: Node)
    ensures AfterStep(v, n).node.up == n.up
  {
    var w := Restore(v, n);
    AppliesUp(v, w, n.core.committed);
    ResolvesUp(v, ApplyAll(v, w, n.core.committed), n.core.readOutcomes);
  }

  lemma {:induction false} AppliesUp(v: Id, w: Work, es: Log)
    ensures ApplyAll(v, w, es).node.up == w.node.up
  {
    if es != [] { AppliesUp(v, w, es[..|es| - 1]); }
  }

  lemma {:induction false} ResolvesUp(v: Id, w: Work, rs: seq<ReadOutcome>)
    ensures ResolveAll(v, w, rs).node.up == w.node.up
  {
    if rs != [] { ResolvesUp(v, w, rs[..|rs| - 1]); }
  }
}
