/** The consensus argument, without nodes, timers or messages.

    A book records what a run has made durable: the current term and log of every member, the log
    that the leader of each term has built, and who stood, voted, accepted and committed. The seven
    entry functions below are the only ways a book grows; Raft's handlers are shown elsewhere to
    be compositions of them. Leader Completeness is proved here, for books of any size. */
module Ledger {
  import opened RaftLog

  datatype Campaign = Campaign(cand: Id, term: nat, log: Log)
  datatype Ballot = Ballot(voter: Id, term: nat, cand: Id, log: Log)
  /** While its term was `term`, voter durably held the first len entries of that term's leader log. */
  datatype Accept = Accept(voter: Id, term: nat, len: nat)
  datatype Election = Election(leader: Id, base: nat, voters: set<Id>)
  datatype Commit = Commit(term: nat, len: nat)

  datatype Book = Book(
    members: set<Id>,
    term: map<Id, nat>,
    log: map<Id, Log>,
    lead: map<nat, Log>,
    won: map<nat, Election>,
    camps: set<Campaign>,
    ballots: set<Ballot>,
    accepts: set<Accept>,
    commits: set<Commit>)

  // ---- invariants ----
  //
  // Each invariant says one thing of every record; the quantifiers are triggered only by naming that
  // thing, so a proof instantiates exactly the records it talks about.

  /** Entry i of x was created by the leader of its term, after exactly the entries x has before it. */
  ghost predicate BackedAt(lead: map<nat, Log>, x: Log, i: nat)
  {
    i < |x| ==> x[i].term in lead && x[..i + 1] <= lead[x[i].term]
  }

  ghost predicate Backed(lead: map<nat, Log>, x: Log)
  {
    forall i: nat {:trigger BackedAt(lead, x, i)} :: BackedAt(lead, x, i)
  }

  ghost predicate TermsUpTo(x: Log, t: nat)
  {
    forall i :: 0 <= i < |x| ==> x[i].term <= t
  }

  /** The leader log of term t: earlier terms below its base, term t from there on. */
  ghost predicate LeadAt(g: Book, t: nat)
  {
    t in g.lead ==>
      && t in g.won && 0 < t
      && g.won[t].leader in g.members
      && g.won[t].base < |g.lead[t]|
      && Backed(g.lead, g.lead[t])
      && (forall i :: 0 <= i < |g.lead[t]| ==>
            && g.lead[t][i].index == i + 1
            && (if i < g.won[t].base then 0 < g.lead[t][i].term < t else g.lead[t][i].term == t))
  }

  ghost predicate LeadOK(g: Book)
  {
    && g.lead.Keys == g.won.Keys
    && forall t: nat {:trigger LeadAt(g, t)} :: LeadAt(g, t)
  }

  predicate Shape(g: Book)
  {
    g.term.Keys == g.members && g.log.Keys == g.members
  }

  ghost predicate NodeAt(g: Book, v: Id)
    requires Shape(g)
  {
    v in g.members ==> Backed(g.lead, g.log[v]) && TermsUpTo(g.log[v], g.term[v])
  }

  ghost predicate NodesOK(g: Book)
    requires Shape(g)
  {
    forall v: Id {:trigger NodeAt(g, v)} :: NodeAt(g, v)
  }

  ghost predicate CampAt(g: Book, c: Campaign)
    requires Shape(g)
  {
    c in g.camps ==>
      c.cand in g.members && c.term <= g.term[c.cand] && Backed(g.lead, c.log) && TermsUpTo(c.log, c.term)
  }

  ghost predicate CampsOK(g: Book)
    requires Shape(g)
  {
    && (forall c {:trigger CampAt(g, c)} :: CampAt(g, c))
    && (forall c, d :: c in g.camps && d in g.camps && c.cand == d.cand && c.term == d.term ==> c == d)
  }

  /** Ballot b answers a campaign whose log was at least as complete as the voter's. */
  ghost predicate Answers(g: Book, b: Ballot, c: Campaign)
  {
    c in g.camps && c.cand == b.cand && c.term == b.term && UpToDate(|c.log|, LastTerm(c.log), b.log)
  }

  ghost predicate BallotAt(g: Book, b: Ballot)
    requires Shape(g)
  {
    b in g.ballots ==>
      && b.voter in g.members && b.term <= g.term[b.voter]
      && Backed(g.lead, b.log)
      && (exists c :: Answers(g, b, c))
  }

  ghost predicate BallotsOK(g: Book)
    requires Shape(g)
  {
    && (forall b {:trigger BallotAt(g, b)} :: BallotAt(g, b))
    && (forall b, d :: b in g.ballots && d in g.ballots && b.voter == d.voter && b.term == d.term ==> b == d)
  }

  /** Leader term t lacks the accepted prefix a, so a voter that followed t may have dropped it. */
  ghost predicate Lacks(g: Book, t: nat, a: Accept)
  {
    t in g.lead && a.term in g.lead && a.len <= |g.lead[a.term]| && !(g.lead[a.term][..a.len] <= g.lead[t])
  }

  /** x still holds the accepted prefix a, or some leader between a's term and t lacked it. */
  ghost predicate Keeps(g: Book, x: Log, t: nat, a: Accept)
  {
    a.term in g.lead && a.len <= |g.lead[a.term]| &&
    (g.lead[a.term][..a.len] <= x || exists u :: a.term < u <= t && Lacks(g, u, a))
  }

  ghost predicate AcceptAt(g: Book, a: Accept)
    requires Shape(g)
  {
    a in g.accepts ==>
      && a.voter in g.members && a.term <= g.term[a.voter]
      && Keeps(g, g.log[a.voter], g.term[a.voter], a)
  }

  ghost predicate AcceptsOK(g: Book)
    requires Shape(g)
  {
    forall a {:trigger AcceptAt(g, a)} :: AcceptAt(g, a)
  }

  ghost predicate BallotKeeps(g: Book, b: Ballot, a: Accept)
  {
    b in g.ballots && a in g.accepts && a.voter == b.voter && a.term < b.term ==> Keeps(g, b.log, b.term, a)
  }

  ghost predicate BallotsKeep(g: Book)
  {
    forall b, a {:trigger BallotKeeps(g, b, a)} :: BallotKeeps(g, b, a)
  }

  /** Ballot b, part of the election of term t, was cast with every earlier accept of its voter in
      hand, unless a leader before t had already lacked it. */
  ghost predicate ElectKeeps(g: Book, t: nat, b: Ballot, a: Accept)
  {
    a in g.accepts && a.voter == b.voter && a.term < t ==> Keeps(g, b.log, t - 1, a)
  }

  /** Ballot b is voter u's share of the election of term t. */
  ghost predicate Elects(g: Book, t: nat, u: Id, b: Ballot)
  {
    && t in g.lead && t in g.won && g.won[t].base <= |g.lead[t]|
    && b in g.ballots && b.voter == u && b.term == t && b.cand == g.won[t].leader
    && UpToDate(g.won[t].base, LastTerm(g.lead[t][..g.won[t].base]), b.log)
    && forall a {:trigger ElectKeeps(g, t, b, a)} :: ElectKeeps(g, t, b, a)
  }

  ghost predicate VotedIn(g: Book, t: nat, u: Id)
  {
    t in g.won && u in g.won[t].voters ==> exists b :: Elects(g, t, u, b)
  }

  ghost predicate WonAt(g: Book, t: nat)
    requires Shape(g)
  {
    t in g.won ==>
      && Quorum(g.members, g.won[t].voters)
      && (forall u: Id {:trigger VotedIn(g, t, u)} :: VotedIn(g, t, u))
      && g.won[t].leader in g.members && t <= g.term[g.won[t].leader]
  }

  ghost predicate ElectionsOK(g: Book)
    requires Shape(g)
  {
    forall t: nat {:trigger WonAt(g, t)} :: WonAt(g, t)
  }

  ghost predicate AcceptedBy(g: Book, q: set<Id>, t: nat, n: nat)
  {
    forall u :: u in q ==> Accept(u, t, n) in g.accepts
  }

  /** Member v has accepted every prefix of term t's leader log up to length n. */
  ghost predicate Held(g: Book, v: Id, t: nat, n: nat)
  {
    forall k :: 0 <= k <= n ==> Accept(v, t, k) in g.accepts
  }

  /** A majority holds the first n entries of term t's leader log, the last of which is t's own. */
  ghost predicate Chosen(g: Book, t: nat, n: nat)
  {
    && t in g.lead && t in g.won && g.won[t].base < n <= |g.lead[t]|
    && exists q :: Quorum(g.members, q) && AcceptedBy(g, q, t, n)
  }

  ghost predicate CommitAt(g: Book, c: Commit)
  {
    c in g.commits ==> Chosen(g, c.term, c.len)
  }

  ghost predicate CommitsOK(g: Book)
  {
    forall c {:trigger CommitAt(g, c)} :: CommitAt(g, c)
  }

  ghost predicate Inv(g: Book)
  {
    && Shape(g) && LeadOK(g) && NodesOK(g) && CampsOK(g) && BallotsOK(g)
    && AcceptsOK(g) && BallotsKeep(g) && ElectionsOK(g) && CommitsOK(g)
  }

  /** The book of a cluster that has never run. */
  function Blank(members: set<Id>): Book
  {
    Book(members, map v | v in members :: 0, map v | v in members :: [], map[], map[], {}, {}, {}, {})
  }

  lemma BlankOK(members: set<Id>)
    ensures Inv(Blank(members))
  {
  }

  // ---- growth ----

  /** h records everything g does: nothing written in a book is ever erased. */
  ghost predicate Extends(g: Book, h: Book)
  {
    && g.members == h.members && Shape(g) && Shape(h)
    && (forall v :: v in g.members ==> g.term[v] <= h.term[v])
    && (forall t :: t in g.lead ==> t in h.lead && g.lead[t] <= h.lead[t])
    && (forall t :: t in g.won ==> t in h.won && g.won[t] == h.won[t])
    && g.camps <= h.camps && g.ballots <= h.ballots && g.accepts <= h.accepts && g.commits <= h.commits
  }

  lemma ExtendsTrans(g: Book, h: Book, k: Book)
    requires Extends(g, h) && Extends(h, k)
    ensures Extends(g, k)
  {
    forall t | t in g.lead
      ensures t in k.lead && g.lead[t] <= k.lead[t]
    {
      PrefixTrans(g.lead[t], h.lead[t], k.lead[t]);
    }
  }

  lemma BackedStays(g: Book, h: Book, x: Log)
    requires Extends(g, h) && Backed(g.lead, x)
    ensures Backed(h.lead, x)
  {
    forall i: nat
      ensures BackedAt(h.lead, x, i)
    {
      assert BackedAt(g.lead, x, i);
      if i < |x| {
        PrefixTrans(x[..i + 1], g.lead[x[i].term], h.lead[x[i].term]);
      }
    }
  }

  lemma LacksStays(g: Book, h: Book, t: nat, a: Accept)
    requires Extends(g, h) && LeadOK(g) && LeadOK(h) && a.term < t && Lacks(g, t, a)
    ensures Lacks(h, t, a)
  {
    assert LeadAt(g, t) && LeadAt(h, t) && LeadAt(h, a.term);
    var p, n := g.lead[a.term][..a.len], |g.lead[t]|;
    assert p == h.lead[a.term][..a.len];
    if |p| <= n {
      var i :| 0 <= i < |p| && p[i] != g.lead[t][i];
      assert h.lead[t][i] == g.lead[t][i];
    } else if n < |h.lead[t]| {
      assert p[n].term < h.lead[t][n].term;
    }
  }

  lemma KeepsStays(g: Book, h: Book, x: Log, t: nat, u: nat, a: Accept)
    requires Extends(g, h) && LeadOK(g) && LeadOK(h) && Keeps(g, x, t, a) && t <= u
    ensures Keeps(h, x, u, a)
  {
    assert g.lead[a.term][..a.len] == h.lead[a.term][..a.len];
    if !(g.lead[a.term][..a.len] <= x) {
      var w :| a.term < w <= t && Lacks(g, w, a);
      LacksStays(g, h, w, a);
    }
  }

  lemma ChosenStays(g: Book, h: Book, t: nat, n: nat)
    requires Extends(g, h) && Chosen(g, t, n)
    ensures Chosen(h, t, n)
  {
    var q :| Quorum(g.members, q) && AcceptedBy(g, q, t, n);
    assert AcceptedBy(h, q, t, n);
  }

  /** New accepts are made by members, in their current term. */
  ghost predicate FreshAccepts(g: Book, h: Book)
    requires Shape(g)
  {
    forall a :: a in h.accepts && a !in g.accepts ==> a.voter in g.members && a.term == g.term[a.voter]
  }

  lemma VotedInStays(g: Book, h: Book, t: nat, u: Id)
    requires Inv(g) && Extends(g, h) && LeadOK(h) && FreshAccepts(g, h) && t in g.won
    ensures VotedIn(h, t, u)
  {
    if u in g.won[t].voters {
      assert WonAt(g, t) && VotedIn(g, t, u);
      var b :| Elects(g, t, u, b);
      assert BallotAt(g, b);
      assert g.lead[t][..g.won[t].base] == h.lead[t][..h.won[t].base];
      forall a
        ensures ElectKeeps(h, t, b, a)
      {
        assert ElectKeeps(g, t, b, a);
        if a in h.accepts && a.voter == u && a.term < t {
          KeepsStays(g, h, b.log, t - 1, t - 1, a);
        }
      }
      assert Elects(h, t, u, b);
    }
  }

  lemma OldCamp(g: Book, h: Book, c: Campaign)
    requires Inv(g) && Extends(g, h) && c in g.camps
    ensures CampAt(h, c)
  {
    assert CampAt(g, c);
    BackedStays(g, h, c.log);
  }

  lemma OldBallot(g: Book, h: Book, b: Ballot)
    requires Inv(g) && Extends(g, h) && b in g.ballots
    ensures BallotAt(h, b)
  {
    assert BallotAt(g, b);
    BackedStays(g, h, b.log);
    var c :| Answers(g, b, c);
    assert Answers(h, b, c);
  }

  lemma OldBallotKeeps(g: Book, h: Book, b: Ballot, a: Accept)
    requires Inv(g) && Extends(g, h) && LeadOK(h) && FreshAccepts(g, h) && b in g.ballots
    ensures BallotKeeps(h, b, a)
  {
    assert BallotAt(g, b) && BallotKeeps(g, b, a);
    if a in h.accepts && a.voter == b.voter && a.term < b.term {
      KeepsStays(g, h, b.log, b.term, b.term, a);
    }
  }

  lemma OldWon(g: Book, h: Book, t: nat)
    requires Inv(g) && Extends(g, h) && LeadOK(h) && FreshAccepts(g, h) && t in g.won
    ensures WonAt(h, t)
  {
    assert WonAt(g, t);
    forall u: Id
      ensures VotedIn(h, t, u)
    {
      VotedInStays(g, h, t, u);
    }
  }

  lemma OldCommits(g: Book, h: Book)
    requires Inv(g) && Extends(g, h) && h.commits == g.commits
    ensures CommitsOK(h)
  {
    forall c
      ensures CommitAt(h, c)
    {
      assert CommitAt(g, c);
      if c in h.commits {
        ChosenStays(g, h, c.term, c.len);
      }
    }
  }

  /** An extension that adds no campaign, ballot or commit keeps everything said of the old ones. */
  lemma OldFactsStay(g: Book, h: Book)
    requires Inv(g) && Extends(g, h) && LeadOK(h) && FreshAccepts(g, h)
    requires h.camps == g.camps && h.ballots == g.ballots && h.commits == g.commits
    ensures CampsOK(h) && BallotsOK(h) && BallotsKeep(h) && CommitsOK(h)
  {
    forall c
      ensures CampAt(h, c)
    {
      if c in h.camps { OldCamp(g, h, c); }
    }
    forall b
      ensures BallotAt(h, b)
    {
      if b in h.ballots { OldBallot(g, h, b); }
    }
    forall b, a
      ensures BallotKeeps(h, b, a)
    {
      if b in h.ballots { OldBallotKeeps(g, h, b, a); }
    }
    OldCommits(g, h);
  }

  /** An extension that leaves the leader logs alone keeps them and their elections in order. */
  lemma SameLead(g: Book, h: Book)
    requires Inv(g) && Extends(g, h) && h.lead == g.lead && h.won == g.won && FreshAccepts(g, h)
    ensures LeadOK(h) && ElectionsOK(h)
  {
    forall t: nat
      ensures LeadAt(h, t)
    {
      assert LeadAt(g, t);
    }
    forall t: nat
      ensures WonAt(h, t)
    {
      if t in h.won { OldWon(g, h, t); }
    }
  }

  lemma OldAccept(g: Book, h: Book, a: Accept)
    requires Inv(g) && Extends(g, h) && LeadOK(h) && a in g.accepts
    requires a.voter in g.members && g.log[a.voter] <= h.log[a.voter]
    ensures AcceptAt(h, a)
  {
    assert AcceptAt(g, a);
    KeepsStays(g, h, g.log[a.voter], g.term[a.voter], h.term[a.voter], a);
    if h.lead[a.term][..a.len] <= g.log[a.voter] {
      PrefixTrans(h.lead[a.term][..a.len], g.log[a.voter], h.log[a.voter]);
    }
  }

  // ---- the entries ----

  /** Member v moves to term t. */
  function Bump(g: Book, v: Id, t: nat): Book
    requires v in g.term
  {
    g.(term := g.term[v := t])
  }

  /** What Bump, Nominate, Cast and Settle have in common: the logs stay. */
  lemma SameLogs(g: Book, h: Book)
    requires Inv(g) && Extends(g, h)
    requires h.lead == g.lead && h.won == g.won && h.log == g.log && h.accepts == g.accepts
    ensures LeadOK(h) && NodesOK(h) && AcceptsOK(h) && ElectionsOK(h)
  {
    SameLead(g, h);
    forall v: Id
      ensures NodeAt(h, v)
    {
      assert NodeAt(g, v);
    }
    forall a
      ensures AcceptAt(h, a)
    {
      if a in h.accepts {
        assert AcceptAt(g, a);
        OldAccept(g, h, a);
      }
    }
  }

  lemma BumpOK(g: Book, v: Id, t: nat)
    requires Inv(g) && v in g.members && g.term[v] <= t
    ensures Inv(Bump(g, v, t)) && Extends(g, Bump(g, v, t))
  {
    var h := Bump(g, v, t);
    SameLogs(g, h);
    OldFactsStay(g, h);
  }

  /** Member v stands for election in its current term. */
  function Nominate(g: Book, v: Id): Book
    requires v in g.term && v in g.log
  {
    g.(camps := g.camps + {Campaign(v, g.term[v], g.log[v])})
  }

  lemma NominateOK(g: Book, v: Id)
    requires Inv(g) && v in g.members
    requires forall c :: c in g.camps && c.cand == v ==> c.term < g.term[v]
    ensures Inv(Nominate(g, v)) && Extends(g, Nominate(g, v))
  {
    var h := Nominate(g, v);
    SameLogs(g, h);
    forall c
      ensures CampAt(h, c)
    {
      if c in g.camps { OldCamp(g, h, c); }
      assert NodeAt(g, v);
    }
    forall b
      ensures BallotAt(h, b)
    {
      if b in h.ballots { OldBallot(g, h, b); }
    }
    forall b, a
      ensures BallotKeeps(h, b, a)
    {
      if b in h.ballots { OldBallotKeeps(g, h, b, a); }
    }
    OldCommits(g, h);
  }

  /** Member v casts its one vote of its current term for cand. */
  function Cast(g: Book, v: Id, cand: Id): Book
    requires v in g.term && v in g.log
  {
    g.(ballots := g.ballots + {Ballot(v, g.term[v], cand, g.log[v])})
  }

  lemma CastOK(g: Book, v: Id, c: Campaign)
    requires Inv(g) && v in g.members
    requires c in g.camps && c.term == g.term[v] && UpToDate(|c.log|, LastTerm(c.log), g.log[v])
    requires forall b :: b in g.ballots && b.voter == v ==> b.term < g.term[v]
    ensures Inv(Cast(g, v, c.cand)) && Extends(g, Cast(g, v, c.cand))
  {
    var h := Cast(g, v, c.cand);
    var b0 := Ballot(v, g.term[v], c.cand, g.log[v]);
    SameLogs(g, h);
    forall d
      ensures CampAt(h, d)
    {
      if d in h.camps { OldCamp(g, h, d); }
    }
    forall b
      ensures BallotAt(h, b)
    {
      if b in g.ballots { OldBallot(g, h, b); }
      assert NodeAt(g, v);
      assert Answers(h, b0, c);
    }
    forall b, a
      ensures BallotKeeps(h, b, a)
    {
      if b in g.ballots { OldBallotKeeps(g, h, b, a); }
      assert AcceptAt(h, a);
    }
    OldCommits(g, h);
  }

  /** The accepts that voter v makes by holding the first n entries of term t's leader log. */
  function AcceptsOf(v: Id, t: nat, n: nat): set<Accept>
  {
    set k | 0 <= k <= n :: Accept(v, t, k)
  }

  /** Candidate v, backed by the voters q, becomes leader of its term and appends e. */
  function Elect(g: Book, v: Id, q: set<Id>, e: Entry): Book
    requires v in g.term && v in g.log
  {
    var t, x := g.term[v], g.log[v] + [e];
    g.(log := g.log[v := x],
       lead := g.lead[t := x],
       won := g.won[t := Election(v, |g.log[v]|, q)],
       accepts := g.accepts + AcceptsOf(v, t, |x|))
  }

  ghost predicate HasBallot(g: Book, u: Id, t: nat, cand: Id)
  {
    exists b :: b in g.ballots && b.voter == u && b.term == t && b.cand == cand
  }

  ghost predicate CanElect(g: Book, v: Id, q: set<Id>, e: Entry)
  {
    && v in g.members && v in g.term && v in g.log && 0 < g.term[v]
    && Quorum(g.members, q) && g.term[v] !in g.lead
    && Campaign(v, g.term[v], g.log[v]) in g.camps
    && (forall u :: u in q ==> HasBallot(g, u, g.term[v], v))
    && e.term == g.term[v] && e.index == |g.log[v]| + 1
  }

  lemma LogShape(g: Book, x: Log, i: nat)
    requires LeadOK(g) && Backed(g.lead, x) && i < |x|
    ensures x[i].index == i + 1 && 0 < x[i].term && x[i].term in g.lead
    ensures forall j :: 0 <= j < i ==> x[j].term <= x[i].term
  {
    assert BackedAt(g.lead, x, i);
    assert LeadAt(g, x[i].term);
    var y := g.lead[x[i].term];
    forall j | 0 <= j <= i
      ensures x[j] == y[j]
    {
      assert x[j] == x[..i + 1][j];
    }
  }

  /** Appending an entry of term t to a backed log x yields a backed log once x + [e] leads t. */
  lemma BackedAppend(lead: map<nat, Log>, x: Log, e: Entry)
    requires Backed(lead, x) && e.term in lead && lead[e.term] == x + [e]
    ensures Backed(lead, x + [e])
  {
    forall i: nat
      ensures BackedAt(lead, x + [e], i)
    {
      assert BackedAt(lead, x, i);
      if i < |x| {
        assert (x + [e])[..i + 1] == x[..i + 1];
      } else if i == |x| {
        assert (x + [e])[..i + 1] == x + [e];
      }
    }
  }

  lemma ElectLead(g: Book, v: Id, q: set<Id>, e: Entry)
    requires Inv(g) && CanElect(g, v, q, e)
    ensures LeadOK(Elect(g, v, q, e)) && Extends(g, Elect(g, v, q, e))
  {
    var h := Elect(g, v, q, e);
    var t, x := g.term[v], g.log[v];
    assert NodeAt(g, v);
    BackedStays(g, h, x);
    BackedAppend(h.lead, x, e);
    forall i | 0 <= i < |x|
      ensures x[i].index == i + 1 && 0 < x[i].term < t
    {
      LogShape(g, x, i);
    }
    forall u: nat
      ensures LeadAt(h, u)
    {
      assert LeadAt(g, u);
      if u in g.lead { BackedStays(g, h, g.lead[u]); }
    }
  }

  lemma ElectVoter(g: Book, v: Id, q: set<Id>, e: Entry, u: Id)
    requires Inv(g) && CanElect(g, v, q, e)
    requires LeadOK(Elect(g, v, q, e)) && Extends(g, Elect(g, v, q, e))
    ensures VotedIn(Elect(g, v, q, e), g.term[v], u)
  {
    var h, t := Elect(g, v, q, e), g.term[v];
    if u in q {
      assert HasBallot(g, u, t, v);
      var b :| b in g.ballots && b.voter == u && b.term == t && b.cand == v;
      assert BallotAt(g, b);
      var c :| Answers(g, b, c);
      assert c == Campaign(v, t, g.log[v]);
      assert h.lead[t][..|g.log[v]|] == g.log[v];
      forall a
        ensures ElectKeeps(h, t, b, a)
      {
        assert BallotKeeps(g, b, a);
        if a in h.accepts && a.voter == u && a.term < t {
          assert Keeps(g, b.log, t - 1, a);
          KeepsStays(g, h, b.log, t - 1, t - 1, a);
        }
      }
      assert Elects(h, t, u, b);
    }
  }

  /** What Elect and Extend have in common: v's log is now the whole leader log of its term. */
  lemma LeaderGrew(g: Book, h: Book, v: Id)
    requires Inv(g) && Extends(g, h) && LeadOK(h)
    requires v in g.members && h.term == g.term && g.term[v] in h.lead
    requires forall u :: u in g.members && u != v ==> h.log[u] == g.log[u]
    requires g.log[v] <= h.log[v] == h.lead[g.term[v]]
    requires h.accepts == g.accepts + AcceptsOf(v, g.term[v], |h.log[v]|)
    ensures NodesOK(h) && AcceptsOK(h)
  {
    forall u: Id
      ensures NodeAt(h, u)
    {
      assert NodeAt(g, u) && LeadAt(h, g.term[v]);
      if u in g.members && u != v { BackedStays(g, h, g.log[u]); }
    }
    forall a
      ensures AcceptAt(h, a)
    {
      assert AcceptAt(g, a);
      if a in g.accepts { OldAccept(g, h, a); }
    }
  }

  lemma ElectOK(g: Book, v: Id, q: set<Id>, e: Entry)
    requires Inv(g) && CanElect(g, v, q, e)
    ensures Inv(Elect(g, v, q, e)) && Extends(g, Elect(g, v, q, e))
  {
    var h, t := Elect(g, v, q, e), g.term[v];
    ElectLead(g, v, q, e);
    LeaderGrew(g, h, v);
    OldFactsStay(g, h);
    forall u: nat
      ensures WonAt(h, u)
    {
      if u in g.won {
        OldWon(g, h, u);
      } else if u == t {
        forall w: Id
          ensures VotedIn(h, t, w)
        {
          ElectVoter(g, v, q, e, w);
        }
      }
    }
  }

  /** The leader v of its current term appends e. */
  function Extend(g: Book, v: Id, e: Entry): Book
    requires v in g.term && v in g.log
  {
    var t, x := g.term[v], g.log[v] + [e];
    g.(log := g.log[v := x], lead := g.lead[t := x], accepts := g.accepts + AcceptsOf(v, t, |x|))
  }

  ghost predicate Leads(g: Book, v: Id)
  {
    && v in g.members && v in g.term && v in g.log
    && g.term[v] in g.lead && g.term[v] in g.won
    && g.won[g.term[v]].leader == v && g.lead[g.term[v]] == g.log[v]
  }

  lemma ExtendOK(g: Book, v: Id, e: Entry)
    requires Inv(g) && Leads(g, v) && e.term == g.term[v] && e.index == |g.log[v]| + 1
    ensures Inv(Extend(g, v, e)) && Extends(g, Extend(g, v, e)) && Leads(Extend(g, v, e), v)
  {
    var h, t, x := Extend(g, v, e), g.term[v], g.log[v];
    assert Extends(g, h);
    assert NodeAt(g, v) && LeadAt(g, t);
    BackedStays(g, h, x);
    BackedAppend(h.lead, x, e);
    forall u: nat
      ensures LeadAt(h, u)
    {
      assert LeadAt(g, u);
      if u in g.lead && u != t { BackedStays(g, h, g.lead[u]); }
    }
    LeaderGrew(g, h, v);
    OldFactsStay(g, h);
    forall u: nat
      ensures WonAt(h, u)
    {
      if u in g.won { OldWon(g, h, u); }
    }
  }

  /** Member v takes over the first n entries of its term's leader log. */
  function Take(g: Book, v: Id, n: nat): Book
    requires v in g.term && v in g.log && g.term[v] in g.lead && n <= |g.lead[g.term[v]]|
  {
    var t := g.term[v];
    g.(log := g.log[v := Merge(g.log[v], g.lead[t][..n])], accepts := g.accepts + AcceptsOf(v, t, n))
  }

  lemma TakeKeeps(g: Book, v: Id, n: nat, a: Accept)
    requires Inv(g) && v in g.members && g.term[v] in g.lead && n <= |g.lead[g.term[v]]|
    requires a in g.accepts && a.voter == v
    ensures Keeps(g, Merge(g.log[v], g.lead[g.term[v]][..n]), g.term[v], a)
  {
    assert AcceptAt(g, a);
    var t, p := g.term[v], g.lead[a.term][..a.len];
    if p <= g.log[v] {
      if p <= g.lead[t] {
        MergeKeeps(g.log[v], g.lead[t][..n], g.lead[t], p);
      } else {
        assert a.term < t && Lacks(g, t, a);
      }
    }
  }

  lemma BackedPrefix(lead: map<nat, Log>, x: Log, n: nat)
    requires Backed(lead, x) && n <= |x|
    ensures Backed(lead, x[..n])
  {
    forall i: nat
      ensures BackedAt(lead, x[..n], i)
    {
      assert BackedAt(lead, x, i);
      if i < n { assert x[..n][..i + 1] == x[..i + 1]; }
    }
  }

  lemma TakeOK(g: Book, v: Id, n: nat)
    requires Inv(g) && v in g.members && g.term[v] in g.lead && n <= |g.lead[g.term[v]]|
    ensures Inv(Take(g, v, n)) && Extends(g, Take(g, v, n))
  {
    var h, t := Take(g, v, n), g.term[v];
    var p := g.lead[t][..n];
    SameLead(g, h);
    OldFactsStay(g, h);
    assert LeadAt(g, t);
    BackedPrefix(g.lead, g.lead[t], n);
    forall u: Id
      ensures NodeAt(h, u)
    {
      assert NodeAt(g, u);
    }
    forall a
      ensures AcceptAt(h, a)
    {
      assert AcceptAt(g, a);
      if a in g.accepts {
        if a.voter == v { TakeKeeps(g, v, n, a); }
        KeepsStays(g, h, h.log[a.voter], g.term[a.voter], g.term[a.voter], a);
      } else if a in h.accepts {
        PrefixOfBoth(g.lead[t][..a.len], p, g.lead[t]);
        PrefixTrans(g.lead[t][..a.len], p, Merge(g.log[v], p));
      }
    }
  }

  /** The leader of term t learns that its first n entries are chosen. */
  function Settle(g: Book, t: nat, n: nat): Book
  {
    g.(commits := g.commits + {Commit(t, n)})
  }

  lemma SettleOK(g: Book, t: nat, n: nat)
    requires Inv(g) && Chosen(g, t, n)
    ensures Inv(Settle(g, t, n)) && Extends(g, Settle(g, t, n))
  {
    var h := Settle(g, t, n);
    SameLogs(g, h);
    forall c
      ensures CampAt(h, c)
    {
      if c in h.camps { OldCamp(g, h, c); }
    }
    forall b
      ensures BallotAt(h, b)
    {
      if b in h.ballots { OldBallot(g, h, b); }
    }
    forall b, a
      ensures BallotKeeps(h, b, a)
    {
      if b in h.ballots { OldBallotKeeps(g, h, b, a); }
    }
    forall c
      ensures CommitAt(h, c)
    {
      assert CommitAt(g, c);
      if c in h.commits { ChosenStays(g, h, c.term, c.len); }
    }
  }

  // ---- what every book guarantees ----

  /** Election Safety: a candidate with a majority of a term's ballots is that term's only leader. */
  lemma OneLeaderPerTerm(g: Book, t: nat, v: Id, q: set<Id>)
    requires Inv(g) && t in g.won && Quorum(g.members, q)
    requires forall u :: u in q ==> HasBallot(g, u, t, v)
    ensures g.won[t].leader == v
  {
    assert WonAt(g, t);
    var u := QuorumsMeet(g.members, g.won[t].voters, q);
    assert VotedIn(g, t, u) && HasBallot(g, u, t, v);
    var b :| Elects(g, t, u, b);
    var d :| d in g.ballots && d.voter == u && d.term == t && d.cand == v;
  }

  /** Log Matching: logs that agree on the term of one entry agree on everything up to it. */
  lemma LogsMatch(g: Book, x: Log, y: Log, i: nat)
    requires Backed(g.lead, x) && Backed(g.lead, y)
    requires i < |x| && i < |y| && x[i].term == y[i].term
    ensures x[..i + 1] == y[..i + 1]
  {
    assert BackedAt(g.lead, x, i) && BackedAt(g.lead, y, i);
    PrefixOfBoth(x[..i + 1], y[..i + 1], g.lead[x[i].term]);
  }

  /** A log that ends in term t is a prefix of that term's leader log. */
  lemma EndsInLead(g: Book, x: Log)
    requires Backed(g.lead, x) && |x| > 0
    ensures LastTerm(x) in g.lead && x <= g.lead[LastTerm(x)]
  {
    assert BackedAt(g.lead, x, |x| - 1);
    assert x[..|x| - 1 + 1] == x;
  }

  /** The election restriction at work: a log at least as complete as one holding the chosen
      prefix p holds p too, given that the leaders in between do. */
  lemma CompleteEnough(g: Book, t: nat, n: nat, x: Log, y: Log)
    requires Inv(g) && t in g.lead && t in g.won && g.won[t].base < n <= |g.lead[t]|
    requires Backed(g.lead, x) && Backed(g.lead, y)
    requires g.lead[t][..n] <= y && UpToDate(|x|, LastTerm(x), y)
    requires t < LastTerm(x) && LastTerm(x) in g.lead ==> g.lead[t][..n] <= g.lead[LastTerm(x)]
    ensures g.lead[t][..n] <= x
  {
    var p := g.lead[t][..n];
    assert LeadAt(g, t);
    assert p[n - 1] == y[n - 1] && y[n - 1].term == t;
    LogShape(g, y, |y| - 1);
    assert t <= LastTerm(y) <= LastTerm(x);
    EndsInLead(g, x);
    EndsInLead(g, y);
    var z := g.lead[LastTerm(x)];
    if LastTerm(x) == LastTerm(y) {
      PrefixOfBoth(y, x, z);
      PrefixTrans(p, y, x);
    } else {
      PrefixOfBoth(p, x, z);
      if |x| <= n {
        assert p[|x| - 1] == x[|x| - 1];
      }
    }
  }

  /** Leader Completeness: what term t's majority chose is in the log of every later leader from
      the moment of its election. */
  lemma {:induction false} LeaderCompleteness(g: Book, t: nat, n: nat, u: nat)
    requires Inv(g) && Chosen(g, t, n) && u in g.lead && t < u
    ensures u in g.won && g.won[u].base < |g.lead[u]|
    ensures g.lead[t][..n] <= g.lead[u][..g.won[u].base]
    decreases u
  {
    assert LeadAt(g, u) && WonAt(g, u);
    var q :| Quorum(g.members, q) && AcceptedBy(g, q, t, n);
    var v := QuorumsMeet(g.members, q, g.won[u].voters);
    assert VotedIn(g, u, v);
    var b :| Elects(g, u, v, b);
    var a, p, x := Accept(v, t, n), g.lead[t][..n], g.lead[u][..g.won[u].base];
    assert ElectKeeps(g, u, b, a);
    if !(p <= b.log) {
      var w :| t < w <= u - 1 && Lacks(g, w, a);
      LeaderCompleteness(g, t, n, w);
      PrefixTrans(p, g.lead[w][..g.won[w].base], g.lead[w]);
    }
    assert BallotAt(g, b);
    BackedPrefix(g.lead, g.lead[u], g.won[u].base);
    if t < LastTerm(x) {
      EndsInLead(g, x);
      LeaderCompleteness(g, t, n, LastTerm(x));
      var w := LastTerm(x);
      PrefixTrans(p, g.lead[w][..g.won[w].base], g.lead[w]);
    }
    CompleteEnough(g, t, n, x, b.log);
  }

  // ---- committed prefixes ----

  /** p was committed by a leader of a term up to t. */
  ghost predicate Safe(g: Book, t: nat, p: Log)
  {
    p == [] || exists c :: Covers(g, t, p, c)
  }

  ghost predicate Covers(g: Book, t: nat, p: Log, c: Commit)
  {
    c in g.commits && c.term <= t && |p| <= c.len && c.term in g.lead && p <= g.lead[c.term]
  }

  lemma SafeStays(g: Book, h: Book, t: nat, u: nat, p: Log)
    requires Safe(g, t, p) && Extends(g, h) && t <= u
    ensures Safe(h, u, p)
  {
    if p != [] {
      var c :| Covers(g, t, p, c);
      PrefixTrans(p, g.lead[c.term], h.lead[c.term]);
      assert Covers(h, u, p, c);
    }
  }

  lemma SafePrefix(g: Book, t: nat, p: Log, q: Log)
    requires Safe(g, t, p) && q <= p
    ensures Safe(g, t, q)
  {
    if p != [] {
      var c :| Covers(g, t, p, c);
      PrefixTrans(q, p, g.lead[c.term]);
      assert Covers(g, t, q, c);
    }
  }

  /** Whatever was committed up to term t is in the log of every later leader from its election on. */
  lemma SafeInBase(g: Book, t: nat, p: Log, u: nat)
    requires Inv(g) && Safe(g, t, p) && t < u && u in g.lead
    ensures u in g.won && g.won[u].base < |g.lead[u]| && p <= g.lead[u][..g.won[u].base]
  {
    assert LeadAt(g, u);
    if p != [] {
      var c :| Covers(g, t, p, c);
      assert CommitAt(g, c);
      LeaderCompleteness(g, c.term, c.len, u);
      var y := g.lead[c.term][..c.len];
      PrefixOfBoth(p, y, g.lead[c.term]);
      PrefixTrans(p, y, g.lead[u][..g.won[u].base]);
    }
  }

  /** Whatever was committed up to term t is in the log of every leader of term t or later. */
  lemma SafeInLead(g: Book, t: nat, p: Log, u: nat)
    requires Inv(g) && Safe(g, t, p) && t <= u && u in g.lead
    ensures p <= g.lead[u]
  {
    if p != [] {
      var c :| Covers(g, t, p, c);
      if c.term < u {
        assert Covers(g, c.term, p, c);
        SafeInBase(g, c.term, p, u);
        PrefixTrans(p, g.lead[u][..g.won[u].base], g.lead[u]);
      }
    }
  }

  /** What a later leader held at its election it holds at every earlier look at its log too. */
  lemma BaseInEarlier(g: Book, h: Book, u: nat, p: Log)
    requires Extends(g, h) && u in g.lead && u in g.won && g.won[u].base <= |g.lead[u]|
    requires p <= h.lead[u] && |p| <= h.won[u].base
    ensures p <= g.lead[u]
  {
    PrefixOfBoth(p, g.lead[u], h.lead[u]);
  }

  /** A member that has not left the term in which it accepted a prefix still holds it. */
  lemma HeldInLog(g: Book, v: Id, t: nat, n: nat)
    requires Inv(g) && v in g.members && g.term[v] == t && Accept(v, t, n) in g.accepts
    ensures t in g.lead && n <= |g.lead[t]| && g.lead[t][..n] <= g.log[v]
  {
    assert AcceptAt(g, Accept(v, t, n));
  }

  /** Two committed prefixes never disagree. */
  lemma SafeAgree(g: Book, t: nat, p: Log, u: nat, q: Log)
    requires Inv(g) && Safe(g, t, p) && Safe(g, u, q)
    ensures if |p| <= |q| then p <= q else q <= p
  {
    if p != [] && q != [] {
      var c :| Covers(g, t, p, c);
      var d :| Covers(g, u, q, d);
      assert Covers(g, c.term, p, c) && Covers(g, d.term, q, d);
      var w := if c.term <= d.term then d.term else c.term;
      SafeInLead(g, c.term, p, w);
      SafeInLead(g, d.term, q, w);
      PrefixOfBoth(p, q, g.lead[w]);
    }
  }
}
