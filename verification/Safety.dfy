/** What holds of every run of the cluster, whatever is lost, repeated, reordered or crashed.

    A theorem about moments i and j of a run speaks of the cluster after its first i and its first j
    events. No theorem assumes anything of the run. */
module Safety {
  import opened RaftLog
  import opened RaftCore
  import opened Cluster
  import opened Ledger
  import opened Trail
  import opened ClusterSim

  predicate Leading(s: System, v: Id)
  {
    v in s.nodes && s.nodes[v].up && s.nodes[v].core.role.Leader?
  }

  /** Two moments of one run, and a book that records everything either of them does. */
  lemma Both(members: set<Id>, run: seq<Event>, i: nat, j: nat) returns (a: Trail, b: Trail, g: Book)
    requires NO_NODE !in members && i <= |run| && j <= |run|
    ensures Sim(At(members, run, i), a) && Sim(At(members, run, j), b)
    ensures Inv(g) && Extends(a.book, g) && Extends(b.book, g)
  {
    var hs := Trace(members, run);
    var n := if i <= j then j else i;
    assert SimAt(members, run, hs, i) && SimAt(members, run, hs, j) && SimAt(members, run, hs, n);
    TraceGrows(members, run, hs, i, n);
    TraceGrows(members, run, hs, j, n);
    GrowthOpen(hs[i], hs[n]);
    GrowthOpen(hs[j], hs[n]);
    TrailOpen(hs[n]);
    a, b, g := hs[i], hs[j], hs[n].book;
  }

  // ---- elections ----

  /** What a trail says of a leader. */
  lemma LeadingFacts(s: System, h: Trail, v: Id)
    requires Sim(s, h) && Leading(s, v)
    ensures var c := s.nodes[v].core;
            && c.term in h.book.won && h.book.won[c.term].leader == v && c.term in h.book.lead
            && h.book.lead[c.term] == Full(c) && h.book.won[c.term].base < |Full(c)|
  {
    SimNode(s, h, v);
    CoreOpen(h, v, s.nodes[v].core);
    TrailOpen(h);
    assert LeadAt(h.book, s.nodes[v].core.term);
  }

  /** Election Safety: over a whole run, restarts included, a term has at most one leader. */
  lemma ElectionSafety(members: set<Id>, run: seq<Event>, i: nat, j: nat, v: Id, w: Id)
    requires NO_NODE !in members && i <= |run| && j <= |run|
    requires Leading(At(members, run, i), v) && Leading(At(members, run, j), w)
    requires At(members, run, i).nodes[v].core.term == At(members, run, j).nodes[w].core.term
    ensures v == w
  {
    var a, b, g := Both(members, run, i, j);
    LeadingFacts(At(members, run, i), a, v);
    LeadingFacts(At(members, run, j), b, w);
  }

  // ---- logs ----

  /** The log of node v, running or crashed, after the first i events. */
  function LogOf(members: set<Id>, run: seq<Event>, i: nat, v: Id): Log
    requires i <= |run| && v in At(members, run, i).nodes
  {
    Full(At(members, run, i).nodes[v].core)
  }

  lemma BackedNode(s: System, h: Trail, g: Book, v: Id)
    requires Sim(s, h) && Extends(h.book, g) && v in s.nodes
    ensures Backed(g.lead, Full(s.nodes[v].core))
  {
    TrailOpen(h);
    SimNode(s, h, v);
    assert NodeAt(h.book, v);
    BackedStays(h.book, g, Full(s.nodes[v].core));
  }

  /** Log Matching: two logs, of any nodes at any moments of a run, that hold the same term at one
      index are identical through that index; so an (index, term) pair names one command for ever. */
  lemma LogMatching(members: set<Id>, run: seq<Event>, i: nat, j: nat, v: Id, w: Id, p: nat)
    requires NO_NODE !in members && i <= |run| && j <= |run|
    requires v in At(members, run, i).nodes && w in At(members, run, j).nodes
    requires p < |LogOf(members, run, i, v)| && p < |LogOf(members, run, j, w)|
    requires LogOf(members, run, i, v)[p].term == LogOf(members, run, j, w)[p].term
    ensures LogOf(members, run, i, v)[..p + 1] == LogOf(members, run, j, w)[..p + 1]
  {
    var a, b, g := Both(members, run, i, j);
    BackedNode(At(members, run, i), a, g, v);
    BackedNode(At(members, run, j), b, g, w);
    LogsMatch(g, LogOf(members, run, i, v), LogOf(members, run, j, w), p);
  }

  /** Every log a run reaches is numbered from 1 without gaps, and its terms never fall and never
      exceed the node's own term. */
  lemma LogsAreOrdered(members: set<Id>, run: seq<Event>, i: nat, v: Id, p: nat)
    requires NO_NODE !in members && i <= |run| && v in At(members, run, i).nodes && p < |LogOf(members, run, i, v)|
    ensures var x := LogOf(members, run, i, v);
            && x[p].index == p + 1 && 0 < x[p].term <= At(members, run, i).nodes[v].core.term
            && (0 < p ==> x[p - 1].term <= x[p].term)
  {
    var a, _, g := Both(members, run, i, i);
    var s := At(members, run, i);
    TrailOpen(a);
    SimNode(s, a, v);
    assert NodeAt(a.book, v);
    LogShape(a.book, Full(s.nodes[v].core), p);
  }

  // ---- commitment ----

  /** Leader Completeness: whatever any node knows to be committed, or has delivered, while its term is
      below w's is in w's log at every moment of w's leadership, earlier or later in the run. */
  lemma LeadersAreComplete(members: set<Id>, run: seq<Event>, i: nat, j: nat, v: Id, w: Id)
    requires NO_NODE !in members && i <= |run| && j <= |run|
    requires v in At(members, run, i).nodes && At(members, run, i).nodes[v].up && Leading(At(members, run, j), w)
    requires At(members, run, i).nodes[v].core.term < At(members, run, j).nodes[w].core.term
    ensures var c := At(members, run, i).nodes[v].core;
            && c.commitIndex <= |Full(c)| && Full(c)[..c.commitIndex] <= LogOf(members, run, j, w)
            && c.lastDelivered <= |Full(c)| && Full(c)[..c.lastDelivered] <= LogOf(members, run, j, w)
  {
    var a, b, g := Both(members, run, i, j);
    var c := At(members, run, i).nodes[v].core;
    CommittedFacts(At(members, run, i), a, v);
    CompleteFrom(At(members, run, j), b, g, w, a.book, c.term, Full(c)[..c.commitIndex]);
    CompleteFrom(At(members, run, j), b, g, w, a.book, c.term, Full(c)[..c.lastDelivered]);
  }

  lemma CommittedFacts(s: System, h: Trail, v: Id)
    requires Sim(s, h) && v in s.nodes && s.nodes[v].up
    ensures CursorsOK(h, s.nodes[v].core)
  {
    SimNode(s, h, v);
    CoreOpen(h, v, s.nodes[v].core);
  }

  lemma CompleteFrom(s: System, h: Trail, g: Book, w: Id, b: Book, t: nat, p: Log)
    requires Sim(s, h) && Extends(h.book, g) && Inv(g) && Leading(s, w)
    requires Safe(b, t, p) && Extends(b, g) && t < s.nodes[w].core.term
    ensures p <= Full(s.nodes[w].core)
  {
    var u := s.nodes[w].core.term;
    LeadingFacts(s, h, w);
    SafeStays(b, g, t, t, p);
    SafeInBase(g, t, p, u);
    PrefixTrans(p, g.lead[u][..g.won[u].base], g.lead[u]);
    BaseInEarlier(h.book, g, u, p);
  }

  /** Two nodes, at any moments, never disagree on what is committed or delivered. */
  lemma CommittedAgree(members: set<Id>, run: seq<Event>, i: nat, j: nat, v: Id, w: Id)
    requires NO_NODE !in members && i <= |run| && j <= |run|
    requires v in At(members, run, i).nodes && At(members, run, i).nodes[v].up
    requires w in At(members, run, j).nodes && At(members, run, j).nodes[w].up
    ensures var c, d := At(members, run, i).nodes[v].core, At(members, run, j).nodes[w].core;
            && c.lastDelivered <= |Full(c)| && d.lastDelivered <= |Full(d)|
            && (c.lastDelivered <= d.lastDelivered ==> Full(c)[..c.lastDelivered] <= Full(d)[..d.lastDelivered])
  {
    var a, b, g := Both(members, run, i, j);
    var c, d := At(members, run, i).nodes[v].core, At(members, run, j).nodes[w].core;
    CommittedFacts(At(members, run, i), a, v);
    CommittedFacts(At(members, run, j), b, w);
    SafeStays(a.book, g, c.term, c.term, Full(c)[..c.lastDelivered]);
    SafeStays(b.book, g, d.term, d.term, Full(d)[..d.lastDelivered]);
    SafeAgree(g, c.term, Full(c)[..c.lastDelivered], d.term, Full(d)[..d.lastDelivered]);
  }

  /** A leader's matchIndex is sound: from the moment a leader believes that p stores its first m
      entries, p's durable log agrees with the leader's that far, until p moves to a higher term. */
  lemma MatchIndexSound(members: set<Id>, run: seq<Event>, i: nat, j: nat, v: Id, p: Id)
    requires NO_NODE !in members && i <= j <= |run| && Leading(At(members, run, i), v)
    requires p in At(members, run, i).nodes[v].core.matchIndex && p in At(members, run, j).nodes
    requires At(members, run, j).nodes[p].core.term == At(members, run, i).nodes[v].core.term
    ensures var m := At(members, run, i).nodes[v].core.matchIndex[p];
            && m <= |LogOf(members, run, i, v)| && m <= |LogOf(members, run, j, p)|
            && LogOf(members, run, j, p)[..m] == LogOf(members, run, i, v)[..m]
  {
    var hs := Trace(members, run);
    assert SimAt(members, run, hs, i) && SimAt(members, run, hs, j);
    TraceGrows(members, run, hs, i, j);
    GrowthOpen(hs[i], hs[j]);
    MatchHeld(At(members, run, i), hs[i], v, p);
    HeldStays(At(members, run, j), hs[i], hs[j], p, At(members, run, i).nodes[v].core);
  }

  lemma MatchHeld(s: System, h: Trail, v: Id, p: Id)
    requires Sim(s, h) && Leading(s, v) && p in s.nodes[v].core.matchIndex
    ensures var c := s.nodes[v].core;
            && Held(h.book, p, c.term, c.matchIndex[p])
            && c.term in h.book.lead && h.book.lead[c.term] == Full(c) && c.matchIndex[p] <= |Full(c)|
  {
    var c := s.nodes[v].core;
    LeadingFacts(s, h, v);
    SimNode(s, h, v);
    CoreOpen(h, v, c);
    TrailOpen(h);
    assert MatchOK(h, c, p);
    assert AcceptAt(h.book, Accept(p, c.term, c.matchIndex[p]));
  }

  lemma HeldStays(s: System, h: Trail, k: Trail, p: Id, c: State)
    requires Sim(s, k) && Extends(h.book, k.book) && p in s.nodes && p in c.matchIndex
    requires s.nodes[p].core.term == c.term && Held(h.book, p, c.term, c.matchIndex[p])
    requires c.term in h.book.lead && h.book.lead[c.term] == Full(c) && c.matchIndex[p] <= |Full(c)|
    ensures var m := c.matchIndex[p];
            m <= |Full(s.nodes[p].core)| && Full(s.nodes[p].core)[..m] == Full(c)[..m]
  {
    var m := c.matchIndex[p];
    TrailOpen(k);
    SimNode(s, k, p);
    HeldInLog(k.book, p, c.term, m);
    PrefixSame(Full(c), k.book.lead[c.term], Full(s.nodes[p].core), m);
  }

  lemma PrefixSame(x: Log, y: Log, z: Log, m: nat)
    requires m <= |x| && x <= y && y[..m] <= z
    ensures m <= |z| && z[..m] == x[..m]
  {
    assert y[..m] == x[..m];
  }
}
