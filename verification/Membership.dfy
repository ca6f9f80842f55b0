/** Cluster membership, changed one server at a time.

    The active table is a cache: at every method boundary it equals the snapshot's configuration folded
    with every configuration entry in the log. And any majority of the table before a change meets any
    majority of the table after it. */
module Membership {
  import opened RaftLog
  import opened ByteCode

  type Table = map<Id, Bytes>

  // ---- changes and their wire form ----

  const OP_ADD: byte := 1
  const OP_REMOVE: byte := 2

  datatype Change = Change(op: byte, id: Id, addr: Bytes)

  function Encode(c: Change): (b: Bytes)
    ensures |b| == 13 + |c.addr|
  {
    [c.op] + Put(c.id, 8) + Put(|c.addr|, 4) + c.addr
  }

  function Decode(b: Bytes): Option<Change>
  {
    if |b| < 13 || |b| - 13 != Get(b[9..13]) || (b[0] != OP_ADD && b[0] != OP_REMOVE) then None
    else Some(Change(b[0], Get(b[1..9]), b[13..]))
  }

  predicate WellFormed(c: Change)
  {
    (c.op == OP_ADD || c.op == OP_REMOVE) && c.id < U64 && |c.addr| < U32
  }

  lemma EncodeParts(o: byte, i: Bytes, n: Bytes, a: Bytes)
    requires |i| == 8 && |n| == 4
    ensures var b := [o] + i + n + a; b[0] == o && b[1..9] == i && b[9..13] == n && b[13..] == a
  {
  }

  lemma EncodeSplit(b: Bytes)
    requires |b| >= 13
    ensures b == [b[0]] + b[1..9] + b[9..13] + b[13..]
  {
  }

  /** Decoding succeeds exactly on encodings, and gives back what was encoded. */
  lemma DecodesIff(b: Bytes, c: Change)
    ensures Decode(b) == Some(c) <==> WellFormed(c) && b == Encode(c)
  {
    Spans();
    if Decode(b) == Some(c) {
      Rewrites(b[1..9], 8);
      Rewrites(b[9..13], 4);
      EncodeSplit(b);
    }
    if WellFormed(c) && b == Encode(c) {
      Fits(c.id, 8);
      Fits(|c.addr|, 4);
      EncodeParts(c.op, Put(c.id, 8), Put(|c.addr|, 4), c.addr);
    }
  }

  // ---- the fold ----

  function Apply(t: Table, c: Change): Table
  {
    if c.op == OP_ADD then t[c.id := c.addr] else if c.op == OP_REMOVE then t - {c.id} else t
  }

  /** What one log entry does to the table: nothing, unless it is a configuration entry that decodes. */
  function Note(t: Table, e: Entry): Table
  {
    if e.kind != KIND_CONFIG then t
    else
      match Decode(e.command)
      case None => t
      case Some(c) => Apply(t, c)
  }

  /** The table of a snapshot's configuration followed by a log. */
  function Fold(t: Table, log: Log): Table
  {
    if log == [] then t else Note(Fold(t, log[..|log| - 1]), log[|log| - 1])
  }

  lemma {:induction false} FoldConcat(t: Table, a: Log, b: Log)
    ensures Fold(t, a + b) == Fold(Fold(t, a), b)
  {
    if b == [] {
      assert a + b == a;
    } else {
      assert (a + b)[..|a + b| - 1] == a + b[..|b| - 1];
      FoldConcat(t, a, b[..|b| - 1]);
    }
  }

  lemma FoldSplit(t: Table, log: Log, k: nat)
    requires k <= |log|
    ensures Fold(t, log) == Fold(Fold(t, log[..k]), log[k..])
  {
    assert log == log[..k] + log[k..];
    FoldConcat(t, log[..k], log[k..]);
  }

  lemma {:induction false} FoldSkips(t: Table, log: Log)
    requires forall e :: e in log ==> e.kind != KIND_CONFIG
    ensures Fold(t, log) == t
  {
    if log != [] { FoldSkips(t, log[..|log| - 1]); }
  }

  // ---- quorums ----

  /** Adding or removing one server keeps every old majority in touch with every new one. */
  lemma QuorumsOverlap(t: Table, c: Change, p: set<Id>, q: set<Id>) returns (v: Id)
    requires Quorum(t.Keys, p) && Quorum(Apply(t, c).Keys, q)
    ensures v in p && v in q
  {
    var before, after := t.Keys, Apply(t, c).Keys;
    if p * q == {} {
      assert |p + q| == |p| + |q|;
      SubsetSize(p + q, before + after);
      OneApart(before, after, c.id);
      assert false;
    }
    v :| v in p * q;
  }

  lemma OneApart(before: set<Id>, after: set<Id>, x: Id)
    requires after == before || after == before + {x} || after == before - {x}
    ensures |before + after| < Majority(before) + Majority(after)
  {
    if after == before {
      assert before + after == before;
    } else if after == before + {x} {
      assert before + after == after && x !in before;
    } else {
      assert before + after == before && before == after + {x} && x !in after;
    }
  }

  /** Two servers at once would not do: majorities before and after may then be disjoint. */
  lemma TwoAtOnceMaySplit()
    ensures Quorum({1, 2, 3}, {1, 2}) && Quorum({1, 2, 3, 4, 5}, {3, 4, 5}) && {1, 2} !! {3, 4, 5}
  {
    assert |{1, 2, 3}| == 3 && |{1, 2, 3, 4, 5}| == 5 && |{1, 2}| == 2 && |{3, 4, 5}| == 3;
  }

  // ---- the table as a cache ----

  /** A configuration entry that decodes. */
  predicate Changes(e: Entry)
  {
    e.kind == KIND_CONFIG && Decode(e.command).Some?
  }

  /** The index of the last entry of the log that changes the configuration, or start. */
  function LastConfig(start: nat, log: Log): nat
  {
    if log == [] then start
    else
      var e := log[|log| - 1];
      if Changes(e) then e.index else LastConfig(start, log[..|log| - 1])
  }

  /** The log's last configuration change is at last; if the log holds none, it was in the snapshot. */
  predicate Marks(last: nat, base: nat, log: Log)
  {
    if LastConfig(0, log) != 0 then last == LastConfig(0, log) else last <= base
  }

  /** Every configuration change in the log is at or below the commit index. */
  ghost predicate Settled(log: Log, commit: nat)
  {
    forall e :: e in log && Changes(e) ==> e.index <= commit
  }

  lemma {:induction false} LastConfigConcat(start: nat, a: Log, b: Log)
    ensures LastConfig(start, a + b) == LastConfig(LastConfig(start, a), b)
  {
    if b == [] {
      assert a + b == a;
    } else {
      assert (a + b)[..|a + b| - 1] == a + b[..|b| - 1];
      LastConfigConcat(start, a, b[..|b| - 1]);
    }
  }

  lemma {:induction false} LastConfigFrom(start: nat, base: nat, log: Log)
    requires Numbered(base, log)
    ensures LastConfig(start, log) == if LastConfig(0, log) != 0 then LastConfig(0, log) else start
    ensures LastConfig(0, log) <= base + |log|
  {
    if log != [] { LastConfigFrom(start, base, log[..|log| - 1]); }
  }

  /** Changes are found in order: the last one is in the log, and none is above it. */
  lemma {:induction false} LastConfigIsLast(base: nat, log: Log)
    requires Numbered(base, log)
    ensures Settled(log, LastConfig(0, log))
    ensures LastConfig(0, log) != 0 ==> exists e :: e in log && Changes(e) && e.index == LastConfig(0, log)
  {
    if log != [] {
      var rest, e := log[..|log| - 1], log[|log| - 1];
      LastConfigIsLast(base, rest);
      assert log == rest + [e];
      if !Changes(e) && LastConfig(0, log) != 0 {
        var d :| d in rest && Changes(d) && d.index == LastConfig(0, rest);
        assert d in log;
      }
    }
  }

  /** The one-at-a-time rule compares two numbers; this is what the comparison means. */
  lemma SettledIff(last: nat, base: nat, log: Log, commit: nat)
    requires Numbered(base, log) && Marks(last, base, log)
    ensures last <= commit ==> Settled(log, commit)
    ensures base <= commit && Settled(log, commit) ==> last <= commit
  {
    LastConfigIsLast(base, log);
  }

  lemma {:induction false} LastConfigSkips(start: nat, log: Log)
    requires forall e :: e in log ==> e.kind != KIND_CONFIG
    ensures LastConfig(start, log) == start
  {
    if log != [] { LastConfigSkips(start, log[..|log| - 1]); }
  }

  lemma MarksConcat(last: nat, base: nat, a: Log, b: Log)
    requires Numbered(base, a) && Numbered(base + |a|, b) && Marks(last, base, a)
    ensures Marks(LastConfig(last, b), base, a + b)
  {
    LastConfigConcat(0, a, b);
    LastConfigFrom(LastConfig(0, a), base + |a|, b);
    LastConfigFrom(last, base + |a|, b);
  }

  lemma MarksCut(last: nat, base: nat, log: Log, n: nat)
    requires n <= |log| && Marks(last, base, log) && forall e :: e in log[n..] ==> e.kind != KIND_CONFIG
    ensures Marks(last, base, log[..n])
  {
    assert log == log[..n] + log[n..];
    LastConfigConcat(0, log[..n], log[n..]);
    LastConfigSkips(LastConfig(0, log[..n]), log[n..]);
  }

  lemma MarksDrop(last: nat, base: nat, log: Log, n: nat)
    requires n <= |log| && Numbered(base, log) && Marks(last, base, log)
    ensures Numbered(base + n, log[n..]) && Marks(last, base + n, log[n..])
  {
    assert log == log[..n] + log[n..];
    LastConfigConcat(0, log[..n], log[n..]);
    LastConfigFrom(0, base, log[..n]);
    LastConfigFrom(LastConfig(0, log[..n]), base + n, log[n..]);
  }

  /** How many entries of the log, from position k on, come before the first with an index above i. */
  function CountUpTo(log: Log, i: nat, k: nat): (n: nat)
    requires k <= |log|
    ensures k <= n <= |log|
    decreases |log| - k
  {
    if k < |log| && log[k].index <= i then CountUpTo(log, i, k + 1) else k
  }

  /** The entries at the front of the log with index at most i. */
  function UpTo(log: Log, i: nat): Log
  {
    log[..CountUpTo(log, i, 0)]
  }

  lemma {:induction false} CountIs(base: nat, log: Log, i: nat, k: nat)
    requires Numbered(base, log) && k <= |log| && base + k <= i <= base + |log|
    ensures CountUpTo(log, i, k) == i - base
    decreases |log| - k
  {
    if base + k < i { CountIs(base, log, i, k + 1); }
  }

  datatype Outcome = NotLeader(hint: Id) | InFlight | AlreadyMember | NotMember | Accepted(index: nat)

  /** The part of the core that membership touches. */
  class Roster {
    var leading: bool
    var leaderId: Id
    var term: nat
    var commitIndex: nat
    var entries: Log
    var snapIndex: nat
    var snapConfig: Table
    var members: Table
    var lastConfigIndex: nat
    var nextIndex: map<Id, nat>
    var matchIndex: map<Id, nat>
    var transferTarget: Id

    /** The table is the snapshot's configuration folded with every configuration entry in the log, and the
        last of those is on record. */
    predicate Valid()
      reads this
    {
      members == Fold(snapConfig, entries) && Numbered(snapIndex, entries) && Marks(lastConfigIndex, snapIndex, entries)
    }

    function LastLogIndex(): nat
      reads this
    {
      if |entries| == 0 then snapIndex else entries[|entries| - 1].index
    }

    /** Restart: whatever the log holds is folded in again. */
    constructor (term: nat, snapIndex: nat, snapConfig: Table, entries: Log)
      requires Numbered(snapIndex, entries)
      ensures Valid() && this.entries == entries && this.snapConfig == snapConfig && this.snapIndex == snapIndex
    {
      leading, leaderId, this.term, commitIndex := false, NO_NODE, term, snapIndex;
      this.entries, this.snapIndex, this.snapConfig := entries, snapIndex, snapConfig;
      nextIndex, matchIndex, members, lastConfigIndex, transferTarget := map[], map[], map[], 0, NO_NODE;
      new;
      RecalcConfig();
    }

    method RecalcConfig()
      modifies `members, `lastConfigIndex
      ensures members == Fold(snapConfig, entries) && lastConfigIndex == LastConfig(0, entries)
    {
      var m, last := snapConfig, 0;
      for i := 0 to |entries|
        invariant m == Fold(snapConfig, entries[..i]) && last == LastConfig(0, entries[..i])
      {
        var e := entries[i];
        assert entries[..i + 1][..i] == entries[..i];
        if e.kind == KIND_CONFIG {
          var c := Decode(e.command);
          if c.Some? { m, last := Apply(m, c.value), e.index; }
        }
      }
      assert entries[..|entries|] == entries;
      members, lastConfigIndex := m, last;
    }

    /** The table as of a log index, for a snapshot taken there. */
    method ConfigAt(index: nat) returns (m: Table)
      ensures m == Fold(snapConfig, UpTo(entries, index))
    {
      m := snapConfig;
      var i := 0;
      while i < |entries|
        invariant 0 <= i <= |entries| && CountUpTo(entries, index, 0) == CountUpTo(entries, index, i)
        invariant m == Fold(snapConfig, entries[..i])
      {
        var e := entries[i];
        if e.index > index { break; }
        assert entries[..i + 1][..i] == entries[..i];
        if e.kind == KIND_CONFIG {
          var c := Decode(e.command);
          if c.Some? { m := Apply(m, c.value); }
        }
        i := i + 1;
      }
    }

    method ApplyConfChange(c: Change, index: nat)
      modifies `members, `lastConfigIndex, `nextIndex, `matchIndex
      ensures members == Apply(old(members), c) && lastConfigIndex == index
      ensures c.op == OP_REMOVE ==> c.id !in nextIndex && c.id !in matchIndex
    {
      if c.op == OP_ADD {
        members := members[c.id := c.addr];
        if leading && c.id !in nextIndex {
          nextIndex := nextIndex[c.id := LastLogIndex() + 1];
          matchIndex := matchIndex[c.id := 0];
        }
      } else if c.op == OP_REMOVE {
        members := members - {c.id};
        nextIndex := nextIndex - {c.id};
        matchIndex := matchIndex - {c.id};
      }
      lastConfigIndex := index;
    }

    method NoteAppendedConfigs(es: Log)
      modifies `members, `lastConfigIndex, `nextIndex, `matchIndex
      ensures members == Fold(old(members), es) && lastConfigIndex == LastConfig(old(lastConfigIndex), es)
    {
      for i := 0 to |es|
        invariant members == Fold(old(members), es[..i]) && lastConfigIndex == LastConfig(old(lastConfigIndex), es[..i])
      {
        assert es[..i + 1][..i] == es[..i];
        if es[i].kind == KIND_CONFIG {
          var c := Decode(es[i].command);
          if c.Some? { ApplyConfChange(c.value, es[i].index); }
        }
      }
      assert es[..|es|] == es;
    }

    /** One change at a time: none is taken while an earlier one in the log is not committed. */
    method ProposeConfChange(c: Change) returns (r: Outcome)
      requires Valid() && WellFormed(c)
      modifies `entries, `members, `lastConfigIndex, `nextIndex, `matchIndex
      ensures Valid()
      ensures r.Accepted? <==> old(leading) && old(transferTarget) == NO_NODE && old(lastConfigIndex) <= old(commitIndex) &&
                               (if c.op == OP_ADD then !(c.id in old(members) && old(members)[c.id] == c.addr)
                                else c.id in old(members))
      ensures r.Accepted? ==> Settled(old(entries), old(commitIndex))
      ensures r.InFlight? && old(snapIndex) <= old(commitIndex) ==> !Settled(old(entries), old(commitIndex))
      ensures r.NotLeader? ==> r.hint == if old(leading) then old(transferTarget) else old(leaderId)
      ensures if r.Accepted?
              then members == Apply(old(members), c) && lastConfigIndex == r.index == old(LastLogIndex()) + 1
                   && entries == old(entries) + [Entry(term, r.index, KIND_CONFIG, Encode(c))]
              else members == old(members) && entries == old(entries) && lastConfigIndex == old(lastConfigIndex)
    {
      SettledIff(lastConfigIndex, snapIndex, entries, commitIndex);
      if !leading { return NotLeader(leaderId); }
      if lastConfigIndex > commitIndex { return InFlight; }
      if c.op == OP_ADD {
        if c.id in members && members[c.id] == c.addr { return AlreadyMember; }
      } else if c.id !in members {
        return NotMember;
      }
      if transferTarget != NO_NODE { return NotLeader(transferTarget); }
      var e := Entry(term, LastLogIndex() + 1, KIND_CONFIG, Encode(c));
      Take(e, c);
      r := Accepted(e.index);
    }

    /** Append the entry of a change; the change is in force at once. */
    method Take(e: Entry, c: Change)
      requires Valid() && WellFormed(c) && e.kind == KIND_CONFIG && e.command == Encode(c) && e.index == LastLogIndex() + 1
      modifies `entries, `members, `lastConfigIndex, `nextIndex, `matchIndex
      ensures Valid() && entries == old(entries) + [e] && members == Apply(old(members), c) && lastConfigIndex == e.index
    {
      var log := entries + [e];
      OneChange(snapConfig, snapIndex, entries, e, c);
      entries := log;
      ApplyConfChange(c, e.index);
    }

    /** Replace a conflicting suffix. Only if that drops a configuration entry is the table rebuilt. */
    method TruncateAndAppend(es: Log)
      requires Valid() && es != [] && snapIndex < es[0].index <= LastLogIndex() + 1 && Numbered(es[0].index - 1, es)
      modifies `entries, `members, `lastConfigIndex, `nextIndex, `matchIndex
      ensures Valid() && es[0].index - 1 - snapIndex <= |old(entries)|
      ensures entries == old(entries)[..es[0].index - 1 - snapIndex] + es
    {
      var truncated := Truncate(es[0].index);
      Extend(es, truncated);
    }

    /** Append, and bring the table up to date: from scratch, or by what is new. */
    method Extend(es: Log, scratch: bool)
      requires !scratch ==> members == Fold(snapConfig, entries) && Marks(lastConfigIndex, snapIndex, entries)
      requires Numbered(snapIndex, entries) && Numbered(snapIndex + |entries|, es)
      modifies `entries, `members, `lastConfigIndex, `nextIndex, `matchIndex
      ensures Valid() && entries == old(entries) + es
    {
      FoldConcat(snapConfig, entries, es);
      if !scratch {
        MarksConcat(lastConfigIndex, snapIndex, entries, es);
      }
      SpliceNumbered(snapIndex, entries, es);
      entries := entries + es;
      if scratch {
        RecalcConfig();
      } else {
        NoteAppendedConfigs(es);
      }
    }

    /** Drop everything from index first on, and say whether a configuration entry went with it. */
    method Truncate(first: nat) returns (truncated: bool)
      requires Valid() && snapIndex < first <= LastLogIndex() + 1
      modifies `entries
      ensures first - 1 - snapIndex <= |old(entries)| && entries == old(entries)[..first - 1 - snapIndex]
      ensures !truncated ==> members == Fold(snapConfig, entries) && Marks(lastConfigIndex, snapIndex, entries)
    {
      truncated := false;
      var n := first - 1 - snapIndex;
      if |entries| > 0 && first <= LastLogIndex() {
        truncated := HoldsConfig(entries[n..]);
        if !truncated {
          DropsNothing(snapConfig, entries, n);
          MarksCut(lastConfigIndex, snapIndex, entries, n);
        }
        entries := entries[..n];
      } else {
        assert entries[..n] == entries;
      }
    }

    method HoldsConfig(cut: Log) returns (found: bool)
      ensures found <==> exists e :: e in cut && e.kind == KIND_CONFIG
    {
      found := false;
      for i := 0 to |cut|
        invariant found <==> exists e :: e in cut[..i] && e.kind == KIND_CONFIG
      {
        if cut[i].kind == KIND_CONFIG { found := true; }
        assert cut[..i + 1] == cut[..i] + [cut[i]];
      }
      assert cut[..|cut|] == cut;
    }

    /** Compaction moves the configuration entries it drops into the snapshot's table. */
    method Compact(applied: nat)
      requires Valid() && snapIndex < applied <= snapIndex + |entries|
      modifies this
      ensures Valid() && members == old(members) && snapIndex == applied
      ensures entries == old(entries)[applied - old(snapIndex)..]
      ensures snapConfig == Fold(old(snapConfig), old(entries)[..applied - old(snapIndex)])
    {
      var config := ConfigAt(applied);
      var k := applied - snapIndex;
      CountIs(snapIndex, entries, applied, 0);
      FoldSplit(snapConfig, entries, k);
      MarksDrop(lastConfigIndex, snapIndex, entries, k);
      entries, snapConfig, snapIndex := entries[k..], config, applied;
    }

    /** An installed snapshot brings its own table; what is kept of the log is folded in again. */
    method InstallSnapshot(index: nat, config: Table, keep: Log)
      requires Numbered(index, keep)
      modifies this
      ensures Valid() && snapIndex == index && snapConfig == config && entries == keep
    {
      entries, snapIndex, snapConfig := keep, index, config;
      commitIndex := if commitIndex < index then index else commitIndex;
      RecalcConfig();
    }
  }

  /** The entry of a proposed change does to the fold what the change does to the table. */
  lemma NoteIs(t: Table, e: Entry, c: Change)
    requires e.kind == KIND_CONFIG && e.command == Encode(c) && WellFormed(c)
    ensures Note(t, e) == Apply(t, c) && Changes(e)
  {
    DecodesIff(e.command, c);
  }

  lemma OneChange(t: Table, base: nat, log: Log, e: Entry, c: Change)
    requires Numbered(base, log) && e.index == (if |log| == 0 then base else log[|log| - 1].index) + 1
    requires e.kind == KIND_CONFIG && e.command == Encode(c) && WellFormed(c)
    ensures Fold(t, log + [e]) == Apply(Fold(t, log), c)
    ensures Numbered(base, log + [e]) && Marks(e.index, base, log + [e])
  {
    assert (log + [e])[..|log|] == log;
    NoteIs(Fold(t, log), e, c);
  }

  lemma SpliceNumbered(base: nat, kept: Log, es: Log)
    requires Numbered(base, kept) && Numbered(base + |kept|, es)
    ensures Numbered(base, kept + es)
  {
  }

  lemma DropsNothing(t: Table, log: Log, n: nat)
    requires n <= |log| && forall e :: e in log[n..] ==> e.kind != KIND_CONFIG
    ensures Fold(t, log[..n]) == Fold(t, log)
  {
    FoldSplit(t, log, n);
    FoldSkips(Fold(t, log[..n]), log[n..]);
  }
}
