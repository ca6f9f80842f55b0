/** Log entries, logs as sequences, and majorities: the vocabulary shared by every Raft module.

    Node ids, terms and indices are unbounded naturals (the source uses uint64); id 0 means
    "no node" and term 0 means "no entry", as in the source. The entry of index i sits at
    position i - 1 of a full log. */
module RaftLog {

  type Id = nat

  newtype byte = b: int | 0 <= b < 256

  type Bytes = seq<byte>

  const NO_NODE: Id := 0

  const KIND_NORMAL: byte := 1
  const KIND_NOOP: byte := 2
  const KIND_CONFIG: byte := 3

  datatype Entry = Entry(term: nat, index: nat, kind: byte, command: Bytes)

  type Log = seq<Entry>

  datatype Option<T> = None | Some(value: T)

  /** Numbered from just above base, without gaps. */
  predicate Numbered(base: nat, log: Log)
  {
    forall i :: 0 <= i < |log| ==> log[i].index == base + 1 + i
  }

  /** The term of the entry of index i, or 0 where x holds none. */
  function TermOf(x: Log, i: nat): nat
  {
    if 0 < i <= |x| then x[i - 1].term else 0
  }

  function LastTerm(x: Log): nat
  {
    TermOf(x, |x|)
  }

  /** The election restriction: a log ending in (lastIndex, lastTerm) is at least as complete as x. */
  predicate UpToDate(lastIndex: nat, lastTerm: nat, x: Log)
  {
    if lastTerm != LastTerm(x) then lastTerm > LastTerm(x) else lastIndex >= |x|
  }

  /** What a replica that holds x keeps of it once a leader has shown it the prefix p. */
  function Merge(x: Log, p: Log): Log
  {
    if p <= x then x else p
  }

  lemma PrefixOfBoth(a: Log, b: Log, c: Log)
    requires a <= c && b <= c
    ensures if |a| <= |b| then a <= b else b <= a
  {
    assert a == c[..|a|] && b == c[..|b|];
  }

  lemma PrefixAt(p: Log, x: Log, i: nat)
    requires i < |p|
    ensures p <= x ==> i < |x| && p[i] == x[i]
  {
  }

  lemma PrefixTrans(a: Log, b: Log, c: Log)
    requires a <= b && b <= c
    ensures a <= c
  {
    assert a == b[..|a|] && b == c[..|b|];
  }

  /** Merging another prefix of y keeps every prefix that x and y share. */
  lemma MergeKeeps(x: Log, q: Log, y: Log, p: Log)
    requires p <= x && p <= y && q <= y
    ensures p <= Merge(x, q)
  {
    if !(q <= x) {
      PrefixOfBoth(p, q, y);
      if |q| <= |p| {
        PrefixTrans(q, p, x);
        assert false;
      }
    }
  }

  // ---- majorities ----

  function Majority(members: set<Id>): nat
  {
    |members| / 2 + 1
  }

  predicate Quorum(members: set<Id>, q: set<Id>)
  {
    q <= members && |q| >= Majority(members)
  }

  lemma {:induction false} SubsetSize(a: set<Id>, b: set<Id>)
    requires a <= b
    ensures |a| <= |b|
  {
    if a != {} {
      var x :| x in a;
      SubsetSize(a - {x}, b - {x});
    }
  }

  /** Any two majorities of one configuration share a member. */
  lemma QuorumsMeet(members: set<Id>, p: set<Id>, q: set<Id>) returns (v: Id)
    requires Quorum(members, p) && Quorum(members, q)
    ensures v in p && v in q
  {
    if p * q == {} {
      assert p !! q && |p + q| == |p| + |q|;
      SubsetSize(p + q, members);
      assert false;
    }
    v :| v in p * q;
  }
}
