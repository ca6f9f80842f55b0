/** The standalone storage engine: a map, a write-ahead log in segments, and snapshots.

    A directory is its files in name order, which is number order. A crash may fall at any byte of an
    append and between any two steps of taking a snapshot; opening the directory then gives the map
    that the acknowledged commands make, with at most the one in flight besides. */
module Store {
  import opened RaftLog
  import opened ByteCode
  import opened Record
  import opened KvCommand

  const SEQ_SIZE := 8
  const MAX_KEY := 0x10_0000
  const MAX_VALUE := 0x400_0000
  const MAX_RECORD := SEQ_SIZE + 1 + 4 + MAX_KEY + 4 + MAX_VALUE

  datatype Segment = Segment(start: nat, data: Bytes)
  datatype Snapshot = Snapshot(lastSeq: nat, kv: Kv)

  /** The wal directory and the snap directory. */
  datatype Disk = Disk(segs: seq<Segment>, snaps: seq<Snapshot>)

  // ---- records ----

  function Payload(n: nat, c: Command): (p: Bytes)
    ensures |p| == SEQ_SIZE + 9 + |c.key| + |c.value|
  {
    Put(n, 8) + Encode(c)
  }

  /** Commands that replay will read back. */
  predicate Storable(c: Command)
  {
    WellFormed(c) && |c.key| + |c.value| <= MAX_KEY + MAX_VALUE
  }

  predicate AllStorable(cs: seq<Command>)
  {
    |cs| < U64 && forall c :: c in cs ==> Storable(c)
  }

  /** The payloads of commands numbered from n on. */
  function Payloads(n: nat, cs: seq<Command>): seq<Bytes>
  {
    seq(|cs|, i requires 0 <= i < |cs| => Payload(n + i, cs[i]))
  }

  lemma PayloadsConcat(n: nat, a: seq<Command>, b: seq<Command>)
    ensures Payloads(n, a + b) == Payloads(n, a) + Payloads(n + |a|, b)
  {
  }

  lemma PayloadsSized(n: nat, cs: seq<Command>)
    requires forall c :: c in cs ==> Storable(c)
    ensures Sized(Payloads(n, cs), SEQ_SIZE, MAX_RECORD)
  {
    forall p | p in Payloads(n, cs)
      ensures SEQ_SIZE <= |p| <= MAX_RECORD
    {
      var i :| 0 <= i < |cs| && Payloads(n, cs)[i] == p;
      assert Storable(cs[i]);
    }
  }

  // ---- replay ----

  datatype Walk = Walk(lastSeq: nat, kv: Kv) | Broken

  function ApplyRecord(w: Walk, p: Bytes): Walk
  {
    if w.Broken? || |p| < SEQ_SIZE then w
    else
      var n := Get(p[..SEQ_SIZE]);
      if n <= w.lastSeq then w
      else if n != w.lastSeq + 1 then Broken
      else
        match Decode(p[SEQ_SIZE..])
        case None => Broken
        case Some(c) => Walk(n, Apply(w.kv, c))
  }

  function ApplyRecords(w: Walk, ps: seq<Bytes>): Walk
    decreases |ps|
  {
    if ps == [] then w else ApplyRecords(ApplyRecord(w, ps[0]), ps[1..])
  }

  function WalRecords(crc: Crc, data: Bytes): seq<Bytes>
  {
    Records(crc, data, SEQ_SIZE, MAX_RECORD)
  }

  /** Replay one segment. An unreadable record ends the newest segment; in any other it is corruption. */
  function ReplaySegment(crc: Crc, w: Walk, data: Bytes, newest: bool): Walk
  {
    var ps := WalRecords(crc, data);
    if !newest && Extent(ps) != |data| then Broken else ApplyRecords(w, ps)
  }

  function ReplayWal(crc: Crc, w: Walk, segs: seq<Segment>): Walk
    decreases |segs|
  {
    if segs == [] then w
    else ReplayWal(crc, ReplaySegment(crc, w, segs[0].data, |segs| == 1), segs[1..])
  }

  /** The newest snapshot, or the empty store. */
  function Newest(snaps: seq<Snapshot>): Snapshot
  {
    if snaps == [] then Snapshot(0, map[]) else snaps[|snaps| - 1]
  }

  datatype Opened = Opened(disk: Disk, kv: Kv, lastSeq: nat) | Refused

  /** The readable part of a segment. */
  function Trim(crc: Crc, data: Bytes): Bytes
  {
    ExtentFits(crc, data, SEQ_SIZE, MAX_RECORD);
    data[..Extent(WalRecords(crc, data))]
  }

  /** The newest segment cut back to what can be read. */
  function TrimLast(crc: Crc, segs: seq<Segment>): (r: seq<Segment>)
    requires segs != []
    ensures r != [] && r[0].start == segs[0].start
  {
    var n := |segs| - 1;
    segs[n := segs[n].(data := Trim(crc, segs[n].data))]
  }

  /** The directory made ready for appending, once replay has reached last. */
  function Readied(crc: Crc, d: Disk, last: nat): Disk
  {
    d.(segs := if d.segs == [] then [Segment(last + 1, [])] else TrimLast(crc, d.segs))
  }

  function Replayed(crc: Crc, d: Disk): Walk
  {
    ReplayWal(crc, Walk(Newest(d.snaps).lastSeq, Newest(d.snaps).kv), d.segs)
  }

  function Open(crc: Crc, d: Disk): Opened
  {
    match Replayed(crc, d)
    case Broken => Refused
    case Walk(last, kv) => Opened(Readied(crc, d, last), kv, last)
  }

  // ---- what a directory stands for ----

  /** The map that the first n commands make. */
  function Fold(cs: seq<Command>, n: nat): Kv
    requires n <= |cs|
  {
    ApplyAll(map[], cs[..n])
  }

  lemma FoldNext(cs: seq<Command>, n: nat)
    requires n < |cs|
    ensures Fold(cs, n + 1) == Apply(Fold(cs, n), cs[n])
  {
    assert cs[..n + 1][..n] == cs[..n];
  }

  lemma PayloadParts(a: Bytes, b: Bytes)
    requires |a| == SEQ_SIZE
    ensures (a + b)[..SEQ_SIZE] == a && (a + b)[SEQ_SIZE..] == b
  {
  }

  lemma ReadsPayload(n: nat, c: Command)
    requires n < U64 && Storable(c)
    ensures Get(Payload(n, c)[..SEQ_SIZE]) == n && Decode(Payload(n, c)[SEQ_SIZE..]) == Some(c)
  {
    Spans();
    Fits(n, 8);
    PayloadParts(Put(n, 8), Encode(c));
    DecodesBack(c);
  }

  lemma PayloadsTail(cs: seq<Command>, a: nat, e: nat)
    requires a < e <= |cs|
    ensures var ps := Payloads(a + 1, cs[a..e]);
            ps != [] && ps[0] == Payload(a + 1, cs[a]) && ps[1..] == Payloads(a + 2, cs[a + 1..e])
  {
  }

  /** Replaying commands a+1..e over the map of the first n, where a <= n: those already in are skipped. */
  lemma {:induction false} ReplaysFrom(cs: seq<Command>, n: nat, a: nat, e: nat)
    requires AllStorable(cs) && a <= n <= |cs| && a <= e <= |cs|
    ensures var m := if n < e then e else n;
            ApplyRecords(Walk(n, Fold(cs, n)), Payloads(a + 1, cs[a..e])) == Walk(m, Fold(cs, m))
    decreases e - a
  {
    if a < e {
      PayloadsTail(cs, a, e);
      assert Storable(cs[a]);
      ReadsPayload(a + 1, cs[a]);
      if a == n {
        FoldNext(cs, n);
        ReplaysFrom(cs, n + 1, a + 1, e);
      } else {
        ReplaysFrom(cs, n, a + 1, e);
      }
    }
  }

  /** The bytes of a segment that holds commands a+1..e. */
  function Image(crc: Crc, cs: seq<Command>, a: nat, e: nat): Bytes
    requires a <= e <= |cs|
  {
    Frames(crc, Payloads(a + 1, cs[a..e]))
  }

  /** Nothing can be read from rest. */
  ghost predicate Unreadable(crc: Crc, rest: Bytes)
  {
    Holds(crc, rest, SEQ_SIZE, MAX_RECORD, [])
  }

  /** Where the commands of the first segment end: where the next segment starts, or with the last command. */
  function FirstEnd(segs: seq<Segment>, total: nat): int
    requires segs != []
  {
    if |segs| == 1 then total else segs[1].start - 1
  }

  /** The segment holds the commands from its start up to number e, and then rest. */
  predicate Covers(crc: Crc, seg: Segment, e: int, cs: seq<Command>, rest: Bytes)
  {
    1 <= seg.start && seg.start - 1 <= e <= |cs| && seg.data == Image(crc, cs, seg.start - 1, e) + rest
  }

  /** The segments hold the commands from the first one's start on, each stopping where the next starts;
      the newest one ends in rest. */
  ghost predicate Laid(crc: Crc, segs: seq<Segment>, cs: seq<Command>, rest: Bytes)
    decreases |segs|
  {
    segs != [] ==>
      && Covers(crc, segs[0], FirstEnd(segs, |cs|), cs, if |segs| == 1 then rest else [])
      && Laid(crc, segs[1..], cs, rest)
  }

  ghost predicate SnapAt(snaps: seq<Snapshot>, cs: seq<Command>, i: nat)
  {
    i < |snaps| ==> snaps[i].lastSeq <= |cs| && snaps[i].kv == Fold(cs, snaps[i].lastSeq)
  }

  /** Every snapshot is the map of the commands it covers. */
  ghost predicate SnapsOK(snaps: seq<Snapshot>, cs: seq<Command>)
  {
    forall i: nat {:trigger SnapAt(snaps, cs, i)} :: SnapAt(snaps, cs, i)
  }

  /** Nothing is missing between the newest snapshot and the oldest segment. */
  predicate Covered(d: Disk, total: nat)
  {
    var s := Newest(d.snaps).lastSeq;
    if d.segs == [] then s == total else d.segs[0].start <= s + 1
  }

  /** The directory stands for the commands cs; rest is what a crash left at its end. */
  ghost predicate StandsFor(crc: Crc, d: Disk, cs: seq<Command>, rest: Bytes)
  {
    && AllStorable(cs) && Unreadable(crc, rest)
    && Laid(crc, d.segs, cs, rest) && SnapsOK(d.snaps, cs) && Covered(d, |cs|)
  }

  // ---- recovery ----

  lemma ImageHolds(crc: Crc, cs: seq<Command>, a: nat, e: nat, rest: Bytes)
    requires AllStorable(cs) && a <= e <= |cs| && Unreadable(crc, rest)
    ensures Holds(crc, Image(crc, cs, a, e) + rest, SEQ_SIZE, MAX_RECORD, Payloads(a + 1, cs[a..e]))
  {
    var ps := Payloads(a + 1, cs[a..e]);
    PayloadsSized(a + 1, cs[a..e]);
    HoldsFrames(crc, ps, rest, [], SEQ_SIZE, MAX_RECORD);
    assert ps + [] == ps;
  }

  lemma NothingUnreadable(crc: Crc)
    ensures Unreadable(crc, [])
  {
  }

  /** One segment replayed over the map of the first n commands. */
  lemma SegmentReplays(crc: Crc, cs: seq<Command>, n: nat, a: nat, e: nat, rest: Bytes, newest: bool)
    requires AllStorable(cs) && a <= n <= |cs| && a <= e <= |cs| && Unreadable(crc, rest) && (!newest ==> rest == [])
    ensures var m := if n < e then e else n;
            ReplaySegment(crc, Walk(n, Fold(cs, n)), Image(crc, cs, a, e) + rest, newest) == Walk(m, Fold(cs, m))
  {
    var data, ps := Image(crc, cs, a, e) + rest, Payloads(a + 1, cs[a..e]);
    ImageHolds(crc, cs, a, e, rest);
    HoldsIs(crc, data, SEQ_SIZE, MAX_RECORD, ps);
    ExtentIs(crc, ps);
    ReplaysFrom(cs, n, a, e);
  }

  lemma {:induction false} WalReplays(crc: Crc, segs: seq<Segment>, cs: seq<Command>, rest: Bytes, n: nat)
    requires AllStorable(cs) && Unreadable(crc, rest) && Laid(crc, segs, cs, rest)
    requires segs != [] && segs[0].start - 1 <= n <= |cs|
    ensures ReplayWal(crc, Walk(n, Fold(cs, n)), segs) == Walk(|cs|, Fold(cs, |cs|))
    decreases |segs|
  {
    var a, e := segs[0].start - 1, FirstEnd(segs, |cs|);
    NothingUnreadable(crc);
    SegmentReplays(crc, cs, n, a, e, if |segs| == 1 then rest else [], |segs| == 1);
    if |segs| > 1 {
      WalReplays(crc, segs[1..], cs, rest, if n < e then e else n);
    }
  }

  lemma TrimIs(crc: Crc, cs: seq<Command>, a: nat, e: nat, rest: Bytes)
    requires AllStorable(cs) && a <= e <= |cs| && Unreadable(crc, rest)
    ensures Trim(crc, Image(crc, cs, a, e) + rest) == Image(crc, cs, a, e)
  {
    var ps := Payloads(a + 1, cs[a..e]);
    ImageHolds(crc, cs, a, e, rest);
    HoldsIs(crc, Image(crc, cs, a, e) + rest, SEQ_SIZE, MAX_RECORD, ps);
    ExtentIs(crc, ps);
  }

  lemma {:induction false} TrimmedLaid(crc: Crc, segs: seq<Segment>, cs: seq<Command>, rest: Bytes)
    requires AllStorable(cs) && Unreadable(crc, rest) && Laid(crc, segs, cs, rest) && segs != []
    ensures Laid(crc, TrimLast(crc, segs), cs, [])
    decreases |segs|
  {
    if |segs| == 1 {
      TrimmedOnly(crc, segs[0], cs, rest);
      assert TrimLast(crc, segs)[1..] == [];
    } else {
      TrimmedLaid(crc, segs[1..], cs, rest);
      TrimLastTail(crc, segs);
    }
  }

  lemma TrimmedOnly(crc: Crc, seg: Segment, cs: seq<Command>, rest: Bytes)
    requires AllStorable(cs) && Unreadable(crc, rest) && Covers(crc, seg, |cs|, cs, rest)
    ensures Covers(crc, seg.(data := Trim(crc, seg.data)), |cs|, cs, [])
  {
    var image := Image(crc, cs, seg.start - 1, |cs|);
    TrimIs(crc, cs, seg.start - 1, |cs|, rest);
    assert image + [] == image;
  }

  lemma TrimLastTail(crc: Crc, segs: seq<Segment>)
    requires |segs| > 1
    ensures TrimLast(crc, segs)[1..] == TrimLast(crc, segs[1..]) && TrimLast(crc, segs)[0] == segs[0]
    ensures |TrimLast(crc, segs)| == |segs| && TrimLast(crc, segs)[1].start == segs[1].start
  {
  }

  lemma NewestIs(snaps: seq<Snapshot>, cs: seq<Command>)
    requires SnapsOK(snaps, cs)
    ensures Newest(snaps).lastSeq <= |cs| && Newest(snaps).kv == Fold(cs, Newest(snaps).lastSeq)
  {
    if snaps != [] {
      assert SnapAt(snaps, cs, |snaps| - 1);
    }
  }

  lemma ReplaysAll(crc: Crc, d: Disk, cs: seq<Command>, rest: Bytes)
    requires StandsFor(crc, d, cs, rest)
    ensures Replayed(crc, d) == Walk(|cs|, Fold(cs, |cs|))
  {
    NewestIs(d.snaps, cs);
    if d.segs != [] {
      WalReplays(crc, d.segs, cs, rest, Newest(d.snaps).lastSeq);
    }
  }

  lemma ReadiedStands(crc: Crc, d: Disk, cs: seq<Command>, rest: Bytes)
    requires StandsFor(crc, d, cs, rest)
    ensures StandsFor(crc, Readied(crc, d, |cs|), cs, []) && Readied(crc, d, |cs|).segs != []
  {
    NothingUnreadable(crc);
    if d.segs == [] {
      EmptySegment(crc, cs);
    } else {
      TrimmedLaid(crc, d.segs, cs, rest);
    }
  }

  /** Opening a directory gives exactly the map of the commands it stands for, and leaves a directory that
      stands for them with nothing at its end. */
  lemma OpenRecovers(crc: Crc, d: Disk, cs: seq<Command>, rest: Bytes)
    requires StandsFor(crc, d, cs, rest)
    ensures var e := Readied(crc, d, |cs|);
            Open(crc, d) == Opened(e, ApplyAll(map[], cs), |cs|) && StandsFor(crc, e, cs, []) && e.segs != []
  {
    ReplaysAll(crc, d, cs, rest);
    ReadiedStands(crc, d, cs, rest);
    assert cs[..|cs|] == cs;
  }

  lemma EmptySegment(crc: Crc, cs: seq<Command>)
    ensures Laid(crc, [Segment(|cs| + 1, [])], cs, [])
  {
    assert cs[|cs|..|cs|] == [];
  }

  // ---- the running store ----

  /** A running store: its directory, its map and the number of its last command. */
  datatype Engine = Engine(disk: Disk, mem: Kv, lastSeq: nat)

  /** The newest segment with more bytes at its end. */
  function Extended(segs: seq<Segment>, more: Bytes): seq<Segment>
    requires segs != []
  {
    var n := |segs| - 1;
    segs[n := segs[n].(data := segs[n].data + more)]
  }

  function NextFrame(crc: Crc, s: Engine, c: Command): Bytes
  {
    Frame(crc, Payload(s.lastSeq + 1, c))
  }

  /** Persist, then apply. */
  function Logged(crc: Crc, s: Engine, c: Command): Engine
    requires s.disk.segs != []
  {
    Engine(s.disk.(segs := Extended(s.disk.segs, NextFrame(crc, s, c))), Apply(s.mem, c), s.lastSeq + 1)
  }

  // The steps of taking a snapshot, in the order snapshot() takes them.

  function WroteSnapshot(s: Engine): Engine
  {
    var snap, k := Snapshot(s.lastSeq, s.mem), |s.disk.snaps| - 1;
    if k >= 0 && s.disk.snaps[k].lastSeq == s.lastSeq then s.(disk := s.disk.(snaps := s.disk.snaps[k := snap]))
    else s.(disk := s.disk.(snaps := s.disk.snaps + [snap]))
  }

  /** A new segment can be created only if there is none of that name. */
  predicate CanRotate(s: Engine)
  {
    s.disk.segs != [] && s.disk.segs[|s.disk.segs| - 1].start != s.lastSeq + 1
  }

  function Rotated(s: Engine): Engine
  {
    s.(disk := s.disk.(segs := s.disk.segs + [Segment(s.lastSeq + 1, [])]))
  }

  /** The oldest segment may go once a snapshot covers everything in it. */
  predicate CanDrop(s: Engine)
  {
    |s.disk.segs| > 1 && s.disk.segs[1].start <= Newest(s.disk.snaps).lastSeq + 1
  }

  function Dropped(s: Engine): Engine
    requires |s.disk.segs| > 1
  {
    s.(disk := s.disk.(segs := s.disk.segs[1..]))
  }

  predicate CanPrune(s: Engine)
  {
    |s.disk.snaps| > 2
  }

  function Pruned(s: Engine): Engine
    requires CanPrune(s)
  {
    s.(disk := s.disk.(snaps := s.disk.snaps[1..]))
  }

  /** The store has acknowledged exactly the commands cs, and its directory stands for them. */
  ghost predicate Running(crc: Crc, s: Engine, cs: seq<Command>)
  {
    && StandsFor(crc, s.disk, cs, []) && s.disk.segs != []
    && s.mem == ApplyAll(map[], cs) && s.lastSeq == |cs|
  }

  lemma SameSlice(cs: seq<Command>, c: Command, a: nat, e: nat)
    requires a <= e <= |cs|
    ensures (cs + [c])[a..e] == cs[a..e]
  {
  }

  lemma ImageGrows(crc: Crc, cs: seq<Command>, c: Command, a: nat)
    requires a <= |cs|
    ensures Image(crc, cs + [c], a, |cs| + 1) == Image(crc, cs, a, |cs|) + Frame(crc, Payload(|cs| + 1, c))
  {
    assert (cs + [c])[a..|cs| + 1] == cs[a..|cs|] + [c];
    PayloadsConcat(a + 1, cs[a..|cs|], [c]);
    assert Payloads(|cs| + 1, [c]) == [Payload(|cs| + 1, c)];
    FramesConcat(crc, Payloads(a + 1, cs[a..|cs|]), [Payload(|cs| + 1, c)]);
    assert Frames(crc, [Payload(|cs| + 1, c)]) == Frame(crc, Payload(|cs| + 1, c)) + [];
  }

  lemma CoverStays(crc: Crc, seg: Segment, e: int, cs: seq<Command>, c: Command)
    requires Covers(crc, seg, e, cs, [])
    ensures Covers(crc, seg, e, cs + [c], [])
  {
    SameSlice(cs, c, seg.start - 1, e);
  }

  lemma CoverGrows(crc: Crc, seg: Segment, cs: seq<Command>, c: Command)
    requires Covers(crc, seg, |cs|, cs, [])
    ensures Covers(crc, seg.(data := seg.data + Frame(crc, Payload(|cs| + 1, c))), |cs| + 1, cs + [c], [])
  {
    var a, f := seg.start - 1, Frame(crc, Payload(|cs| + 1, c));
    ImageGrows(crc, cs, c, a);
    assert seg.data == Image(crc, cs, a, |cs|);
    assert (seg.data + f) + [] == seg.data + f;
  }

  lemma {:induction false} AppendLaid(crc: Crc, segs: seq<Segment>, cs: seq<Command>, c: Command, f: Bytes)
    requires Laid(crc, segs, cs, []) && segs != [] && f == Frame(crc, Payload(|cs| + 1, c))
    ensures Laid(crc, Extended(segs, f), cs + [c], [])
    decreases |segs|
  {
    if |segs| == 1 {
      CoverGrows(crc, segs[0], cs, c);
    } else {
      AppendLaid(crc, segs[1..], cs, c, f);
      ExtendedTail(segs, f);
      CoverStays(crc, segs[0], FirstEnd(segs, |cs|), cs, c);
    }
  }

  lemma ExtendedTail(segs: seq<Segment>, f: Bytes)
    requires |segs| > 1
    ensures Extended(segs, f)[1..] == Extended(segs[1..], f) && Extended(segs, f)[0] == segs[0]
    ensures Extended(segs, f)[1].start == segs[1].start
  {
  }

  lemma {:induction false} TornLaid(crc: Crc, segs: seq<Segment>, cs: seq<Command>, rest: Bytes)
    requires Laid(crc, segs, cs, []) && segs != []
    ensures Laid(crc, Extended(segs, rest), cs, rest)
    decreases |segs|
  {
    if |segs| > 1 {
      TornLaid(crc, segs[1..], cs, rest);
      ExtendedTail(segs, rest);
    } else {
      TornOnly(crc, segs[0], cs, rest);
      assert Extended(segs, rest)[1..] == [];
    }
  }

  lemma TornOnly(crc: Crc, seg: Segment, cs: seq<Command>, rest: Bytes)
    requires Covers(crc, seg, |cs|, cs, [])
    ensures Covers(crc, seg.(data := seg.data + rest), |cs|, cs, rest)
  {
    var image := Image(crc, cs, seg.start - 1, |cs|);
    assert image + [] == image;
  }

  lemma SnapsStay(snaps: seq<Snapshot>, cs: seq<Command>, c: Command)
    requires SnapsOK(snaps, cs)
    ensures SnapsOK(snaps, cs + [c])
  {
    forall i: nat
      ensures SnapAt(snaps, cs + [c], i)
    {
      assert SnapAt(snaps, cs, i);
      if i < |snaps| {
        SameSlice(cs, c, 0, snaps[i].lastSeq);
      }
    }
  }

  /** An acknowledged command is stood for. */
  lemma LoggedRuns(crc: Crc, s: Engine, cs: seq<Command>, c: Command)
    requires Running(crc, s, cs) && Storable(c) && |cs| + 1 < U64
    ensures Running(crc, Logged(crc, s, c), cs + [c])
  {
    AppendLaid(crc, s.disk.segs, cs, c, NextFrame(crc, s, c));
    SnapsStay(s.disk.snaps, cs, c);
    assert (cs + [c])[..|cs|] == cs;
  }

  /** A crash n bytes into an append: the directory stands for the commands acknowledged before, unless
      the whole record had been written, and then for that one too. */
  lemma TornStands(crc: Crc, s: Engine, cs: seq<Command>, c: Command, n: nat)
    requires Running(crc, s, cs) && Storable(c) && |cs| + 1 < U64 && n <= |NextFrame(crc, s, c)|
    ensures var f := NextFrame(crc, s, c);
            var d := s.disk.(segs := Extended(s.disk.segs, f[..n]));
            if n < |f| then StandsFor(crc, d, cs, f[..n]) else StandsFor(crc, d, cs + [c], [])
  {
    var p := Payload(s.lastSeq + 1, c);
    var f := Frame(crc, p);
    if n < |f| {
      ParseTorn(crc, p, n, MAX_RECORD);
      TornLaid(crc, s.disk.segs, cs, f[..n]);
    } else {
      assert f[..n] == f;
      LoggedRuns(crc, s, cs, c);
    }
  }

  lemma {:induction false} SegmentBelow(crc: Crc, segs: seq<Segment>, cs: seq<Command>, rest: Bytes, i: nat)
    requires Laid(crc, segs, cs, rest) && i < |segs|
    ensures segs[i].start <= |cs| + 1
    decreases i
  {
    if i > 0 { SegmentBelow(crc, segs[1..], cs, rest, i - 1); }
  }

  /** What a directory stands for does not depend on its snapshots, if the newest covers everything. */
  lemma Resnapped(crc: Crc, d: Disk, cs: seq<Command>, snaps: seq<Snapshot>)
    requires StandsFor(crc, d, cs, []) && d.segs != [] && d.segs[0].start <= |cs| + 1
    requires SnapsOK(snaps, cs) && Newest(snaps).lastSeq == |cs|
    ensures StandsFor(crc, d.(snaps := snaps), cs, [])
  {
  }

  lemma SnapshotRuns(crc: Crc, s: Engine, cs: seq<Command>)
    requires Running(crc, s, cs)
    ensures Running(crc, WroteSnapshot(s), cs) && Newest(WroteSnapshot(s).disk.snaps).lastSeq == |cs|
  {
    var snaps := WroteSnapshot(s).disk.snaps;
    assert SnapsOK(s.disk.snaps, cs) && cs[..|cs|] == cs;
    SnapAdded(s.disk.snaps, cs, Snapshot(|cs|, s.mem));
    assert snaps != [] && snaps[|snaps| - 1] == Snapshot(|cs|, s.mem);
    SegmentBelow(crc, s.disk.segs, cs, [], 0);
    Resnapped(crc, s.disk, cs, snaps);
  }

  lemma SnapAdded(snaps: seq<Snapshot>, cs: seq<Command>, snap: Snapshot)
    requires SnapsOK(snaps, cs) && snap == Snapshot(|cs|, Fold(cs, |cs|))
    ensures SnapsOK(snaps + [snap], cs) && (snaps != [] ==> SnapsOK(snaps[|snaps| - 1 := snap], cs))
  {
    forall i: nat
      ensures SnapAt(snaps + [snap], cs, i)
    {
      assert SnapAt(snaps, cs, i);
    }
    if snaps != [] {
      var replaced := snaps[|snaps| - 1 := snap];
      forall i: nat
        ensures SnapAt(replaced, cs, i)
      {
        assert SnapAt(snaps, cs, i);
      }
    }
  }

  lemma {:induction false} RotatedLaid(crc: Crc, segs: seq<Segment>, cs: seq<Command>)
    requires Laid(crc, segs, cs, [])
    ensures Laid(crc, segs + [Segment(|cs| + 1, [])], cs, [])
    decreases |segs|
  {
    var last := Segment(|cs| + 1, []);
    if segs == [] {
      EmptySegment(crc, cs);
      assert segs + [last] == [last];
    } else {
      RotatedLaid(crc, segs[1..], cs);
      assert (segs + [last])[1..] == segs[1..] + [last];
    }
  }

  lemma RotatedRuns(crc: Crc, s: Engine, cs: seq<Command>)
    requires Running(crc, s, cs)
    ensures Running(crc, Rotated(s), cs)
  {
    RotatedLaid(crc, s.disk.segs, cs);
  }

  lemma DroppedRuns(crc: Crc, s: Engine, cs: seq<Command>)
    requires Running(crc, s, cs) && CanDrop(s)
    ensures Running(crc, Dropped(s), cs)
  {
  }

  lemma PrunedRuns(crc: Crc, s: Engine, cs: seq<Command>)
    requires Running(crc, s, cs) && CanPrune(s)
    ensures Running(crc, Pruned(s), cs)
  {
    forall i: nat
      ensures SnapAt(Pruned(s).disk.snaps, cs, i)
    {
      assert SnapAt(s.disk.snaps, cs, i + 1);
    }
  }

  // ---- whole runs ----

  /** What can happen to a store. The steps of a snapshot are events of their own, so that a crash may fall
      between any two of them; a crash is followed by a restart. */
  datatype Event =
    | PutKey(key: Bytes, value: Bytes)
    | DeleteKey(key: Bytes)
    | WriteSnapshot
    | RotateWal
    | DropSegment
    | PruneSnapshot
    | Crash
    | CrashIn(command: Command, written: nat)

  /** The commands of a run within the bounds that replay will read back. */
  predicate Bounded(s: Engine, c: Command)
  {
    Storable(c) && s.lastSeq + 1 < U64
  }

  /** The process starts on a directory. */
  function Restarted(crc: Crc, s: Engine, d: Disk): Engine
  {
    match Open(crc, d)
    case Refused => s.(disk := d)
    case Opened(d1, kv, n) => Engine(d1, kv, n)
  }

  function Next(crc: Crc, s: Engine, ev: Event): Engine
    requires s.disk.segs != []
  {
    match ev
    case PutKey(key, value) =>
      var c := Command(OP_PUT, key, value);
      if Bounded(s, c) then Logged(crc, s, c) else s
    case DeleteKey(key) =>
      var c := Command(OP_DELETE, key, []);
      if key in s.mem && Bounded(s, c) then Logged(crc, s, c) else s
    case WriteSnapshot => WroteSnapshot(s)
    case RotateWal => if CanRotate(s) then Rotated(s) else s
    case DropSegment => if CanDrop(s) then Dropped(s) else s
    case PruneSnapshot => if CanPrune(s) then Pruned(s) else s
    case Crash => Restarted(crc, s, s.disk)
    case CrashIn(c, n) =>
      var f := NextFrame(crc, s, c);
      if Bounded(s, c) && n <= |f| then Restarted(crc, s, s.disk.(segs := Extended(s.disk.segs, f[..n])))
      else Restarted(crc, s, s.disk)
  }

  /** The commands acknowledged, or found whole in the log after a crash in the middle of one. */
  function Acknowledged(crc: Crc, s: Engine, cs: seq<Command>, ev: Event): seq<Command>
  {
    match ev
    case PutKey(key, value) =>
      var c := Command(OP_PUT, key, value);
      if Bounded(s, c) then cs + [c] else cs
    case DeleteKey(key) =>
      var c := Command(OP_DELETE, key, []);
      if key in s.mem && Bounded(s, c) then cs + [c] else cs
    case CrashIn(c, n) => if Bounded(s, c) && n == |NextFrame(crc, s, c)| then cs + [c] else cs
    case _ => cs
  }

  lemma RestartRuns(crc: Crc, s: Engine, d: Disk, cs: seq<Command>, rest: Bytes)
    requires StandsFor(crc, d, cs, rest)
    ensures Running(crc, Restarted(crc, s, d), cs)
  {
    OpenRecovers(crc, d, cs, rest);
  }

  /** Every event leaves a store that has exactly its acknowledged commands, in memory and on disk. */
  lemma NextRuns(crc: Crc, s: Engine, cs: seq<Command>, ev: Event)
    requires Running(crc, s, cs)
    ensures Running(crc, Next(crc, s, ev), Acknowledged(crc, s, cs, ev))
  {
    match ev
    case PutKey(key, value) =>
      if Bounded(s, Command(OP_PUT, key, value)) { LoggedRuns(crc, s, cs, Command(OP_PUT, key, value)); }
    case DeleteKey(key) =>
      if key in s.mem && Bounded(s, Command(OP_DELETE, key, [])) { LoggedRuns(crc, s, cs, Command(OP_DELETE, key, [])); }
    case WriteSnapshot => SnapshotRuns(crc, s, cs);
    case RotateWal => RotatedRuns(crc, s, cs);
    case DropSegment => if CanDrop(s) { DroppedRuns(crc, s, cs); }
    case PruneSnapshot => if CanPrune(s) { PrunedRuns(crc, s, cs); }
    case Crash => RestartRuns(crc, s, s.disk, cs, []);
    case CrashIn(c, n) => CrashInRuns(crc, s, cs, c, n);
  }

  lemma CrashInRuns(crc: Crc, s: Engine, cs: seq<Command>, c: Command, n: nat)
    requires Running(crc, s, cs)
    ensures Running(crc, Next(crc, s, CrashIn(c, n)), Acknowledged(crc, s, cs, CrashIn(c, n)))
  {
    var f := NextFrame(crc, s, c);
    if Bounded(s, c) && n <= |f| {
      var d := s.disk.(segs := Extended(s.disk.segs, f[..n]));
      TornStands(crc, s, cs, c, n);
      if n < |f| {
        RestartRuns(crc, s, d, cs, f[..n]);
      } else {
        RestartRuns(crc, s, d, cs + [c], []);
      }
    } else {
      RestartRuns(crc, s, s.disk, cs, []);
    }
  }

  datatype State = State(engine: Engine, acked: seq<Command>)

  /** The store, and what it has acknowledged, after a run that starts on an empty directory. */
  function After(crc: Crc, run: seq<Event>): State
    decreases |run|
  {
    if run == [] then State(Restarted(crc, Engine(Disk([], []), map[], 0), Disk([], [])), [])
    else
      var s := After(crc, run[..|run| - 1]);
      if s.engine.disk.segs == [] then s
      else State(Next(crc, s.engine, run[|run| - 1]), Acknowledged(crc, s.engine, s.acked, run[|run| - 1]))
  }

  lemma {:induction false} AlwaysRunning(crc: Crc, run: seq<Event>)
    ensures Running(crc, After(crc, run).engine, After(crc, run).acked)
    decreases |run|
  {
    if run == [] {
      NothingUnreadable(crc);
      RestartRuns(crc, Engine(Disk([], []), map[], 0), Disk([], []), [], []);
    } else {
      var s := After(crc, run[..|run| - 1]);
      AlwaysRunning(crc, run[..|run| - 1]);
      NextRuns(crc, s.engine, s.acked, run[|run| - 1]);
    }
  }

  /** Durability: after any run of writes, deletes, snapshots and crashes, the store holds exactly the map
      that the acknowledged commands make, and so would a store opened on its directory. */
  lemma Durable(crc: Crc, run: seq<Event>)
    ensures var s := After(crc, run);
            && s.engine.mem == ApplyAll(map[], s.acked)
            && Open(crc, s.engine.disk).Opened? && Open(crc, s.engine.disk).kv == s.engine.mem
            && Open(crc, s.engine.disk).lastSeq == |s.acked|
  {
    AlwaysRunning(crc, run);
    OpenRecovers(crc, After(crc, run).engine.disk, After(crc, run).acked, []);
  }

  // ---- one call of the write path ----

  function DropAll(s: Engine): (r: Engine)
    decreases |s.disk.segs|
  {
    if |s.disk.segs| <= 1 then s else DropAll(Dropped(s))
  }

  function PruneAll(s: Engine): (r: Engine)
    decreases |s.disk.snaps|
  {
    if CanPrune(s) then PruneAll(Pruned(s)) else s
  }

  /** What one call of snapshot() does: if the new segment cannot be created it stops there. */
  function SnapshotTaken(s: Engine): Engine
  {
    var s1 := WroteSnapshot(s);
    if CanRotate(s1) then PruneAll(DropAll(Rotated(s1))) else s1
  }

  lemma {:induction false} DropAllRuns(crc: Crc, s: Engine, cs: seq<Command>)
    requires Running(crc, s, cs) && Newest(s.disk.snaps).lastSeq == |cs|
    ensures Running(crc, DropAll(s), cs)
    decreases |s.disk.segs|
  {
    if |s.disk.segs| > 1 {
      SegmentBelow(crc, s.disk.segs, cs, [], 1);
      DroppedRuns(crc, s, cs);
      DropAllRuns(crc, Dropped(s), cs);
    }
  }

  lemma {:induction false} PruneAllRuns(crc: Crc, s: Engine, cs: seq<Command>)
    requires Running(crc, s, cs)
    ensures Running(crc, PruneAll(s), cs)
    decreases |s.disk.snaps|
  {
    if CanPrune(s) {
      PrunedRuns(crc, s, cs);
      PruneAllRuns(crc, Pruned(s), cs);
    }
  }

  /** A snapshot, completed or stopped short, changes nothing that the store stands for. */
  lemma SnapshotTakenRuns(crc: Crc, s: Engine, cs: seq<Command>)
    requires Running(crc, s, cs)
    ensures Running(crc, SnapshotTaken(s), cs)
  {
    SnapshotRuns(crc, s, cs);
    var s1 := WroteSnapshot(s);
    if CanRotate(s1) {
      RotatedRuns(crc, s1, cs);
      DropAllRuns(crc, Rotated(s1), cs);
      PruneAllRuns(crc, DropAll(Rotated(s1)), cs);
    }
  }

  /** logAndApply: persist, apply, and snapshot once the active segment has outgrown the threshold. */
  function LoggedAndApplied(crc: Crc, threshold: nat, s: Engine, c: Command): Engine
    requires s.disk.segs != []
  {
    var s1 := Logged(crc, s, c);
    if |s1.disk.segs[|s1.disk.segs| - 1].data| < threshold then s1 else SnapshotTaken(s1)
  }

  /** The bytes of the active segment. */
  function Active(segs: seq<Segment>): Bytes
    requires segs != []
  {
    segs[|segs| - 1].data
  }

  /** A write within the bounds, with the snapshot it may set off, adds its command and nothing else. */
  lemma LoggedAndAppliedRuns(crc: Crc, threshold: nat, s: Engine, cs: seq<Command>, c: Command)
    requires Running(crc, s, cs) && Storable(c) && |cs| + 1 < U64
    ensures Running(crc, LoggedAndApplied(crc, threshold, s, c), cs + [c])
  {
    LoggedRuns(crc, s, cs, c);
    SnapshotTakenRuns(crc, Logged(crc, s, c), cs + [c]);
  }

  // ---- oversize commands ----

  /** Put accepts any key and value whose lengths fit 32 bits together with the rest of the record. */
  predicate Framable(c: Command)
  {
    WellFormed(c) && SEQ_SIZE + 9 + |c.key| + |c.value| < U32
  }

  lemma OversizeStands(crc: Crc, s: Engine, cs: seq<Command>, c: Command)
    requires Running(crc, s, cs) && Framable(c) && !Storable(c)
    ensures StandsFor(crc, Logged(crc, s, c).disk, cs, NextFrame(crc, s, c))
  {
    var p := Payload(s.lastSeq + 1, c);
    ParseOversize(crc, p, [], MAX_RECORD);
    assert Frame(crc, p) + [] == Frame(crc, p);
    TornLaid(crc, s.disk.segs, cs, Frame(crc, p));
  }

  lemma {:induction false} DropAllIs(s: Engine)
    requires s.disk.segs != []
    ensures DropAll(s) == s.(disk := s.disk.(segs := [s.disk.segs[|s.disk.segs| - 1]]))
    decreases |s.disk.segs|
  {
    if |s.disk.segs| > 1 {
      DropAllIs(Dropped(s));
    } else {
      assert s.disk.segs == [s.disk.segs[0]];
    }
  }

  lemma {:induction false} PruneAllIs(s: Engine)
    ensures var t := PruneAll(s);
            t == s.(disk := s.disk.(snaps := t.disk.snaps)) && Newest(t.disk.snaps) == Newest(s.disk.snaps)
    decreases |s.disk.snaps|
  {
    if CanPrune(s) { PruneAllIs(Pruned(s)); }
  }

  /** Records up to number e change nothing for a replay that starts from a later one. */
  lemma {:induction false} SkipsOld(cs: seq<Command>, n: nat, kv: Kv, a: nat, e: nat)
    requires AllStorable(cs) && a <= e <= |cs| && e <= n
    ensures ApplyRecords(Walk(n, kv), Payloads(a + 1, cs[a..e])) == Walk(n, kv)
    decreases e - a
  {
    if a < e {
      PayloadsTail(cs, a, e);
      assert Storable(cs[a]);
      ReadsPayload(a + 1, cs[a]);
      SkipsOld(cs, n, kv, a + 1, e);
    }
  }

  lemma SegmentSkips(crc: Crc, cs: seq<Command>, n: nat, kv: Kv, a: nat, e: nat, rest: Bytes, newest: bool)
    requires AllStorable(cs) && a <= e <= |cs| && e <= n && Unreadable(crc, rest)
    ensures ReplaySegment(crc, Walk(n, kv), Image(crc, cs, a, e) + rest, newest)
         == if newest || rest == [] then Walk(n, kv) else Broken
  {
    var data, ps := Image(crc, cs, a, e) + rest, Payloads(a + 1, cs[a..e]);
    ImageHolds(crc, cs, a, e, rest);
    HoldsIs(crc, data, SEQ_SIZE, MAX_RECORD, ps);
    ExtentIs(crc, ps);
    SkipsOld(cs, n, kv, a, e);
  }

  /** Segments that a snapshot covers add nothing to it. */
  lemma {:induction false} WalSkips(crc: Crc, segs: seq<Segment>, cs: seq<Command>, rest: Bytes, n: nat, kv: Kv)
    requires AllStorable(cs) && |cs| <= n && Unreadable(crc, rest) && Laid(crc, segs, cs, rest)
    ensures ReplayWal(crc, Walk(n, kv), segs) == Walk(n, kv)
    decreases |segs|
  {
    if segs != [] {
      NothingUnreadable(crc);
      SegmentSkips(crc, cs, n, kv, segs[0].start - 1, FirstEnd(segs, |cs|), if |segs| == 1 then rest else [], |segs| == 1);
      WalSkips(crc, segs[1..], cs, rest, n, kv);
    }
  }

  lemma Headed(a: seq<Segment>, b: seq<Segment>)
    requires a != [] && b != []
    ensures (a + b)[0] == a[0] && (a + b)[1..] == a[1..] + b && |a + b| > 1
  {
  }

  /** If the newest of them ends in something unreadable and a newer segment follows, replay refuses. */
  lemma {:induction false} WalRefuses(crc: Crc, segs: seq<Segment>, cs: seq<Command>, rest: Bytes, n: nat, kv: Kv, more: seq<Segment>)
    requires AllStorable(cs) && |cs| <= n && Unreadable(crc, rest) && rest != [] && Laid(crc, segs, cs, rest)
    requires segs != [] && more != []
    ensures ReplayWal(crc, Walk(n, kv), segs + more) == Broken
    decreases |segs|
  {
    NothingUnreadable(crc);
    Headed(segs, more);
    SegmentSkips(crc, cs, n, kv, segs[0].start - 1, FirstEnd(segs, |cs|), if |segs| == 1 then rest else [], false);
    if |segs| > 1 {
      WalRefuses(crc, segs[1..], cs, rest, n, kv, more);
    } else {
      BrokenStays(crc, segs[1..] + more);
    }
  }

  /** The engine right after an oversize command has been logged, applied and snapshotted. */
  function Oversnapped(crc: Crc, s: Engine, c: Command): Engine
    requires s.disk.segs != []
  {
    WroteSnapshot(Logged(crc, s, c))
  }

  lemma OversnappedIs(crc: Crc, s: Engine, cs: seq<Command>, c: Command)
    requires Running(crc, s, cs)
    ensures var t := Oversnapped(crc, s, c);
            && t.disk.segs == Extended(s.disk.segs, NextFrame(crc, s, c)) && t.lastSeq == |cs| + 1
            && Newest(t.disk.snaps) == Snapshot(|cs| + 1, ApplyAll(map[], cs + [c]))
  {
    assert (cs + [c])[..|cs|] == cs;
  }

  lemma OpenIs(crc: Crc, d: Disk, n: nat, kv: Kv, w: Walk)
    requires Newest(d.snaps) == Snapshot(n, kv) && ReplayWal(crc, Walk(n, kv), d.segs) == w
    ensures match w
            case Broken => Open(crc, d) == Refused
            case Walk(m, kv1) => Open(crc, d).Opened? && Open(crc, d).kv == kv1 && Open(crc, d).lastSeq == m
  {
  }

  // Where a crash inside the write of an oversize command leaves the directory.

  /** Before the snapshot is written the command is not there, and nothing else is lost. */
  lemma OversizeLogged(crc: Crc, s: Engine, cs: seq<Command>, c: Command)
    requires Running(crc, s, cs) && Framable(c) && !Storable(c)
    ensures var o := Open(crc, Logged(crc, s, c).disk); o.Opened? && o.kv == ApplyAll(map[], cs) && o.lastSeq == |cs|
  {
    OversizeStands(crc, s, cs, c);
    OpenRecovers(crc, Logged(crc, s, c).disk, cs, NextFrame(crc, s, c));
  }

  /** Between the snapshot and the rotation the command is there. */
  lemma OversizeSnapped(crc: Crc, s: Engine, cs: seq<Command>, c: Command)
    requires Running(crc, s, cs) && Framable(c) && !Storable(c)
    ensures var o := Open(crc, Oversnapped(crc, s, c).disk);
            o.Opened? && o.kv == ApplyAll(map[], cs + [c]) && o.lastSeq == |cs| + 1
  {
    OversizeStands(crc, s, cs, c);
    OversnappedIs(crc, s, cs, c);
    var segs, kv := Oversnapped(crc, s, c).disk.segs, ApplyAll(map[], cs + [c]);
    WalSkips(crc, segs, cs, NextFrame(crc, s, c), |cs| + 1, kv);
    OpenIs(crc, Oversnapped(crc, s, c).disk, |cs| + 1, kv, Walk(|cs| + 1, kv));
  }

  /** After the rotation, with the first j of the old segments removed: as long as one of them is left the
      directory does not open at all, and all that was ever acknowledged is out of reach. */
  lemma OversizeRotated(crc: Crc, s: Engine, cs: seq<Command>, c: Command, j: nat)
    requires Running(crc, s, cs) && Framable(c) && !Storable(c) && j <= |s.disk.segs|
    ensures var d := Rotated(Oversnapped(crc, s, c)).disk;
            var o := Open(crc, d.(segs := d.segs[j..]));
            if j < |s.disk.segs| then o == Refused
            else o.Opened? && o.kv == ApplyAll(map[], cs + [c]) && o.lastSeq == |cs| + 1
  {
    OversizeStands(crc, s, cs, c);
    OversnappedIs(crc, s, cs, c);
    var d, kv := Rotated(Oversnapped(crc, s, c)).disk, ApplyAll(map[], cs + [c]);
    RotatedOpens(crc, Oversnapped(crc, s, c).disk.segs, cs, NextFrame(crc, s, c), |cs| + 1, kv, j);
    OpenIs(crc, d.(segs := d.segs[j..]), |cs| + 1, kv, if j < |s.disk.segs| then Broken else Walk(|cs| + 1, kv));
  }

  lemma RotatedOpens(crc: Crc, segs: seq<Segment>, cs: seq<Command>, rest: Bytes, n: nat, kv: Kv, j: nat)
    requires AllStorable(cs) && |cs| <= n && Unreadable(crc, rest) && rest != [] && Laid(crc, segs, cs, rest) && j <= |segs|
    ensures ReplayWal(crc, Walk(n, kv), (segs + [Segment(n + 1, [])])[j..]) == if j < |segs| then Broken else Walk(n, kv)
  {
    var more := [Segment(n + 1, [])];
    assert (segs + more)[j..] == segs[j..] + more;
    if j < |segs| {
      LaidFrom(crc, segs, cs, rest, j);
      WalRefuses(crc, segs[j..], cs, rest, n, kv, more);
    } else {
      assert segs[j..] + more == more && more[1..] == [];
      assert WalRecords(crc, []) == [];
    }
  }

  lemma {:induction false} LaidFrom(crc: Crc, segs: seq<Segment>, cs: seq<Command>, rest: Bytes, j: nat)
    requires Laid(crc, segs, cs, rest) && j <= |segs|
    ensures Laid(crc, segs[j..], cs, rest)
    decreases j
  {
    if j > 0 {
      LaidFrom(crc, segs[1..], cs, rest, j - 1);
      assert segs[1..][j - 1..] == segs[j..];
    }
  }

  lemma OversizeTaken(crc: Crc, s: Engine, cs: seq<Command>, c: Command)
    requires Running(crc, s, cs) && Framable(c) && !Storable(c)
    ensures var d, r := SnapshotTaken(Logged(crc, s, c)).disk, Rotated(Oversnapped(crc, s, c)).disk;
            d.segs == r.segs[|s.disk.segs|..] && Newest(d.snaps) == Newest(r.snaps)
  {
    OversizeStands(crc, s, cs, c);
    OversnappedIs(crc, s, cs, c);
    var t := Oversnapped(crc, s, c);
    SegmentBelow(crc, t.disk.segs, cs, NextFrame(crc, s, c), |t.disk.segs| - 1);
    DropAllIs(Rotated(t));
    PruneAllIs(DropAll(Rotated(t)));
  }

  /** With the snapshot completed the command is there. */
  lemma OversizeAcknowledged(crc: Crc, s: Engine, cs: seq<Command>, c: Command)
    requires Running(crc, s, cs) && Framable(c) && !Storable(c)
    ensures var o := Open(crc, SnapshotTaken(Logged(crc, s, c)).disk);
            o.Opened? && o.kv == ApplyAll(map[], cs + [c]) && o.lastSeq == |cs| + 1
  {
    OversizeStands(crc, s, cs, c);
    OversnappedIs(crc, s, cs, c);
    OversizeTaken(crc, s, cs, c);
    var d, n, kv := SnapshotTaken(Logged(crc, s, c)).disk, |cs| + 1, ApplyAll(map[], cs + [c]);
    RotatedOpens(crc, Oversnapped(crc, s, c).disk.segs, cs, NextFrame(crc, s, c), n, kv, |s.disk.segs|);
    OpenIs(crc, d, n, kv, Walk(n, kv));
  }

  /** An acknowledged command survives a restart if and only if its key and value are together within the
      bounds that replay assumes, or the active segment has reached the threshold with it, so that a
      snapshot was taken before the write was acknowledged. The write path itself checks no bound. */
  lemma SurvivesIff(crc: Crc, threshold: nat, s: Engine, cs: seq<Command>, c: Command)
    requires Running(crc, s, cs) && Framable(c) && |cs| + 1 < U64
    ensures var o := Open(crc, LoggedAndApplied(crc, threshold, s, c).disk);
            var safe := |c.key| + |c.value| <= MAX_KEY + MAX_VALUE || threshold <= |Active(s.disk.segs)| + |NextFrame(crc, s, c)|;
            && o.Opened? && (o.lastSeq == |cs| + 1 <==> safe)
            && o.kv == ApplyAll(map[], if safe then cs + [c] else cs)
  {
    if Storable(c) {
      LoggedAndAppliedRuns(crc, threshold, s, cs, c);
      OpenRecovers(crc, LoggedAndApplied(crc, threshold, s, c).disk, cs + [c], []);
    } else {
      OversizeLogged(crc, s, cs, c);
      OversizeAcknowledged(crc, s, cs, c);
    }
  }

  // ---- the store as an object ----

  class DurableStore {
    const crc: Crc
    const threshold: nat
    var segs: seq<Segment>
    var snaps: seq<Snapshot>
    var mem: Kv
    var lastSeq: nat

    ghost function View(): Engine
      reads this
    {
      Engine(Disk(segs, snaps), mem, lastSeq)
    }

    /** A store on a directory that Open accepted. */
    constructor (crc: Crc, threshold: nat, o: Opened)
      requires o.Opened?
      ensures View() == Engine(o.disk, o.kv, o.lastSeq) && this.crc == crc && this.threshold == threshold
    {
      this.crc, this.threshold := crc, threshold;
      segs, snaps, mem, lastSeq := o.disk.segs, o.disk.snaps, o.kv, o.lastSeq;
    }

    method LogAndApply(c: Command)
      requires segs != []
      modifies this
      ensures View() == LoggedAndApplied(crc, threshold, old(View()), c)
    {
      var b, n := Frame(crc, Payload(lastSeq + 1, c)), |segs| - 1;
      segs := segs[n := segs[n].(data := segs[n].data + b)];
      lastSeq := lastSeq + 1;
      mem := Apply(mem, c);
      if |segs[n].data| >= threshold {
        var _ := TakeSnapshot();
      }
    }

    method PutKey(key: Bytes, value: Bytes)
      requires segs != []
      modifies this
      ensures View() == LoggedAndApplied(crc, threshold, old(View()), Command(OP_PUT, key, value))
    {
      LogAndApply(Command(OP_PUT, key, value));
    }

    /** Deleting an absent key changes nothing and writes nothing. */
    method DeleteKey(key: Bytes) returns (existed: bool)
      requires segs != []
      modifies this
      ensures existed == (key in old(mem))
      ensures View() == if existed then LoggedAndApplied(crc, threshold, old(View()), Command(OP_DELETE, key, []))
                        else old(View())
    {
      if key !in mem { return false; }
      LogAndApply(Command(OP_DELETE, key, []));
      existed := true;
    }

    method TakeSnapshot() returns (ok: bool)
      modifies `segs, `snaps
      ensures View() == SnapshotTaken(old(View())) && ok == CanRotate(WroteSnapshot(old(View())))
    {
      var k := |snaps| - 1;
      if k >= 0 && snaps[k].lastSeq == lastSeq {
        snaps := snaps[k := Snapshot(lastSeq, mem)];
      } else {
        snaps := snaps + [Snapshot(lastSeq, mem)];
      }
      if segs == [] || segs[|segs| - 1].start == lastSeq + 1 { return false; }
      segs := segs + [Segment(lastSeq + 1, [])];
      DropCovered();
      PruneSnapshots();
      ok := true;
    }

    /** Remove every segment but the active one, oldest first. */
    method DropCovered()
      modifies `segs
      ensures View() == DropAll(old(View()))
    {
      while |segs| > 1
        invariant DropAll(View()) == DropAll(old(View()))
      {
        segs := segs[1..];
      }
    }

    /** Keep the two newest snapshots. */
    method PruneSnapshots()
      modifies `snaps
      ensures View() == PruneAll(old(View()))
    {
      while |snaps| > 2
        invariant PruneAll(View()) == PruneAll(old(View()))
      {
        snaps := snaps[1..];
      }
    }
  }

  /** replayWAL's loop over the records of one segment. */
  method ReplayRecords(crc: Crc, w: Walk, data: Bytes) returns (r: Walk, off: nat)
    ensures r == ApplyRecords(w, WalRecords(crc, data)) && off == Extent(WalRecords(crc, data))
  {
    ghost var ps: seq<Bytes> := [];
    r, off := w, 0;
    assert data[0..] == data && [] + WalRecords(crc, data) == WalRecords(crc, data);
    while off < |data|
      invariant off <= |data| && WalRecords(crc, data) == ps + WalRecords(crc, data[off..])
      invariant Extent(ps) == off && r == ApplyRecords(w, ps)
    {
      var parsed := Parse(crc, data[off..], MAX_RECORD);
      if parsed.None? || |parsed.value| < SEQ_SIZE { break; }
      var p := parsed.value;
      ReadOneMore(crc, w, data, off, ps, p);
      r := ApplyRecord(r, p);
      off := off + HEADER_SIZE + |p|;
      ps := ps + [p];
    }
    assert WalRecords(crc, data[off..]) == [] && ps + [] == ps;
  }

  lemma ReadOneMore(crc: Crc, w: Walk, data: Bytes, off: nat, ps: seq<Bytes>, p: Bytes)
    requires off <= |data| && WalRecords(crc, data) == ps + WalRecords(crc, data[off..])
    requires Parse(crc, data[off..], MAX_RECORD) == Some(p) && |p| >= SEQ_SIZE
    ensures off + HEADER_SIZE + |p| <= |data|
    ensures WalRecords(crc, data) == (ps + [p]) + WalRecords(crc, data[off + HEADER_SIZE + |p|..])
    ensures Extent(ps + [p]) == Extent(ps) + HEADER_SIZE + |p|
    ensures ApplyRecords(w, ps + [p]) == ApplyRecord(ApplyRecords(w, ps), p)
  {
    OneMore(crc, data, off, ps, p, SEQ_SIZE, MAX_RECORD);
    ExtentConcat(ps, p);
    AppliesOn(w, ps, p);
  }

  lemma {:induction false} AppliesOn(w: Walk, ps: seq<Bytes>, p: Bytes)
    ensures ApplyRecords(w, ps + [p]) == ApplyRecord(ApplyRecords(w, ps), p)
    decreases |ps|
  {
    if ps == [] {
      assert ps + [p] == [p];
    } else {
      assert (ps + [p])[0] == ps[0] && (ps + [p])[1..] == ps[1..] + [p];
      AppliesOn(ApplyRecord(w, ps[0]), ps[1..], p);
    }
  }

  /** replayWAL: segment by segment, stopping at the first corrupt one. */
  method ReplaySegments(crc: Crc, w: Walk, segs: seq<Segment>) returns (r: Walk)
    ensures r == ReplayWal(crc, w, segs)
  {
    r := w;
    var i := 0;
    assert segs[0..] == segs;
    while i < |segs|
      invariant 0 <= i <= |segs| && ReplayWal(crc, r, segs[i..]) == ReplayWal(crc, w, segs)
    {
      var next, off := ReplayRecords(crc, r, segs[i].data);
      if i < |segs| - 1 && off != |segs[i].data| {
        BrokenStays(crc, segs[i + 1..]);
        assert segs[i..][0] == segs[i] && segs[i..][1..] == segs[i + 1..];
        return Broken;
      }
      assert segs[i..][0] == segs[i] && segs[i..][1..] == segs[i + 1..];
      r := next;
      i := i + 1;
    }
  }

  lemma {:induction false} BrokenStays(crc: Crc, segs: seq<Segment>)
    ensures ReplayWal(crc, Broken, segs) == Broken
    decreases |segs|
  {
    if segs != [] {
      BrokenRecords(WalRecords(crc, segs[0].data));
      BrokenStays(crc, segs[1..]);
    }
  }

  lemma {:induction false} BrokenRecords(ps: seq<Bytes>)
    ensures ApplyRecords(Broken, ps) == Broken
  {
    if ps != [] { BrokenRecords(ps[1..]); }
  }

  method OpenStore(crc: Crc, d: Disk) returns (o: Opened)
    ensures o == Open(crc, d)
  {
    var s := Newest(d.snaps);
    var w := ReplaySegments(crc, Walk(s.lastSeq, s.kv), d.segs);
    if w.Broken? { return Refused; }
    o := Opened(Readied(crc, d, w.lastSeq), w.kv, w.lastSeq);
  }
}
