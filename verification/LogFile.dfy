/** The Raft log on disk: one append-only file of framed entries, in which an entry at index i supersedes
    everything stored before it at i or above.

    After any history of appends and rewrites, and a crash at any byte of the last append, opening the
    file gives the log that was in memory, with some whole number of the last batch's entries applied. */
module LogFile {
  import opened RaftLog
  import opened ByteCode
  import opened Record
  import RaftCore

  // ---- entries as payloads ----

  const ENTRY_HEADER_LEN := 17
  const MAX_COMMAND := 0x400_0000
  const MAX_ENTRY_PAYLOAD := ENTRY_HEADER_LEN + MAX_COMMAND

  function Payload(e: Entry): (p: Bytes)
    ensures |p| == ENTRY_HEADER_LEN + |e.command|
  {
    Put(e.term, 8) + Put(e.index, 8) + [e.kind] + e.command
  }

  function ReadEntry(p: Bytes): Entry
    requires |p| >= ENTRY_HEADER_LEN
  {
    Entry(Get(p[..8]), Get(p[8..16]), p[16], p[ENTRY_HEADER_LEN..])
  }

  /** Term and index are 64-bit, as the source's are. */
  predicate Wide(e: Entry)
  {
    e.term < U64 && e.index < U64
  }

  /** Entries that openLog will read back. */
  predicate Storable(e: Entry)
  {
    Wide(e) && |e.command| <= MAX_COMMAND
  }

  predicate AllStorable(es: Log)
  {
    forall e :: e in es ==> Storable(e)
  }

  lemma PayloadParts(a: Bytes, b: Bytes, k: byte, c: Bytes)
    requires |a| == 8 && |b| == 8
    ensures var p := a + b + [k] + c; p[..8] == a && p[8..16] == b && p[16] == k && p[ENTRY_HEADER_LEN..] == c
  {
  }

  /** An entry survives being stored. */
  lemma ReadPayload(e: Entry)
    requires Wide(e)
    ensures ReadEntry(Payload(e)) == e
  {
    PayloadParts(Put(e.term, 8), Put(e.index, 8), e.kind, e.command);
    Spans();
    Fits(e.term, 8);
    Fits(e.index, 8);
  }

  function Payloads(es: Log): (ps: seq<Bytes>)
    ensures |ps| == |es|
  {
    if es == [] then [] else [Payload(es[0])] + Payloads(es[1..])
  }

  lemma {:induction false} PayloadsConcat(a: Log, b: Log)
    ensures Payloads(a + b) == Payloads(a) + Payloads(b)
  {
    if a == [] {
      assert a + b == b;
    } else {
      assert (a + b)[0] == a[0] && (a + b)[1..] == a[1..] + b;
      PayloadsConcat(a[1..], b);
    }
  }

  lemma {:induction false} PayloadsAt(es: Log, i: nat)
    requires i < |es|
    ensures Payloads(es)[i] == Payload(es[i])
  {
    if i > 0 { PayloadsAt(es[1..], i - 1); }
  }

  lemma PayloadsSized(es: Log)
    requires AllStorable(es)
    ensures Sized(Payloads(es), ENTRY_HEADER_LEN, MAX_ENTRY_PAYLOAD)
  {
    forall p | p in Payloads(es)
      ensures ENTRY_HEADER_LEN <= |p| <= MAX_ENTRY_PAYLOAD
    {
      var i :| 0 <= i < |es| && Payloads(es)[i] == p;
      PayloadsAt(es, i);
      assert Storable(es[i]);
    }
  }

  /** The bytes that one append of es writes. */
  function Image(crc: Crc, es: Log): Bytes
  {
    Frames(crc, Payloads(es))
  }

  lemma ImageConcat(crc: Crc, a: Log, b: Log)
    ensures Image(crc, a + b) == Image(crc, a) + Image(crc, b)
  {
    PayloadsConcat(a, b);
    FramesConcat(crc, Payloads(a), Payloads(b));
  }

  // ---- opening ----

  /** The supersede rule: log with e stored after it, or None where the rule is broken. */
  function Supersede(base: nat, log: Log, e: Entry): Option<Log>
  {
    if log == [] then
      if e.index == base + 1 then Some([e]) else None
    else
      var first, last := log[0].index, log[|log| - 1].index;
      if e.index == last + 1 then Some(log + [e])
      else if first <= e.index <= last && e.index - first <= |log| then Some(log[..e.index - first] + [e])
      else None
  }

  function Fold(base: nat, log: Log, es: Log): Option<Log>
    decreases |es|
  {
    if es == [] then Some(log)
    else
      match Supersede(base, log, es[0])
      case None => None
      case Some(log1) => Fold(base, log1, es[1..])
  }

  function Entries(ps: seq<Bytes>): Log
  {
    if ps == [] then []
    else (if |ps[0]| < ENTRY_HEADER_LEN then [] else [ReadEntry(ps[0])]) + Entries(ps[1..])
  }

  function LogRecords(crc: Crc, data: Bytes): seq<Bytes>
  {
    Records(crc, data, ENTRY_HEADER_LEN, MAX_ENTRY_PAYLOAD)
  }

  /** What opening the log gives: the entries and the offset where valid data ends, or a refusal. */
  datatype Opened = Opened(log: Log, end: nat) | Refused

  function Open(crc: Crc, data: Bytes, base: nat): Opened
  {
    var ps := LogRecords(crc, data);
    match Fold(base, [], Entries(ps))
    case None => Refused
    case Some(log) => Opened(log, Extent(ps))
  }

  lemma {:induction false} EntriesOfPayloads(es: Log)
    requires forall e :: e in es ==> Wide(e)
    ensures Entries(Payloads(es)) == es
  {
    if es != [] {
      assert Wide(es[0]);
      ReadPayload(es[0]);
      EntriesOfPayloads(es[1..]);
      assert Payloads(es)[1..] == Payloads(es[1..]);
    }
  }

  lemma {:induction false} FoldConcat(base: nat, log: Log, a: Log, b: Log)
    ensures Fold(base, log, a + b) == match Fold(base, log, a) case None => None case Some(log1) => Fold(base, log1, b)
    decreases |a|
  {
    if a == [] {
      assert a + b == b;
    } else {
      assert (a + b)[0] == a[0] && (a + b)[1..] == a[1..] + b;
      if Supersede(base, log, a[0]).Some? {
        FoldConcat(base, Supersede(base, log, a[0]).value, a[1..], b);
      }
    }
  }

  // ---- the log in memory ----

  /** A batch that may be appended to log: consecutive, and starting within it or just past its end. */
  predicate Appendable(base: nat, log: Log, es: Log)
  {
    es != [] ==>
      base < es[0].index <= base + |log| + 1 && forall i :: 0 <= i < |es| ==> es[i].index == es[0].index + i
  }

  /** The log once es has replaced whatever it conflicts with. */
  function Overwrite(base: nat, log: Log, es: Log): (r: Log)
    requires Numbered(base, log) && Appendable(base, log, es)
    ensures Numbered(base, r)
  {
    if es == [] then log else log[..es[0].index - 1 - base] + es
  }

  /** The core's own truncateAndAppend does to memory what an append does to the file. */
  lemma MemoryAgrees(s: RaftCore.State, es: Log)
    requires Numbered(s.snap.lastIndex, s.entries) && es != [] && Appendable(s.snap.lastIndex, s.entries, es)
    requires !RaftCore.TruncateAndAppend(s, es).halted
    ensures RaftCore.TruncateAndAppend(s, es).entries == Overwrite(s.snap.lastIndex, s.entries, es)
  {
    var n := es[0].index - 1 - s.snap.lastIndex;
    if n == |s.entries| {
      assert s.entries[..n] == s.entries;
    }
  }

  lemma SupersedeIs(base: nat, log: Log, e: Entry)
    requires Numbered(base, log) && base < e.index <= base + |log| + 1
    ensures Supersede(base, log, e) == Some(Overwrite(base, log, [e]))
  {
    if e.index - 1 - base == |log| {
      assert log[..|log|] == log && [] + [e] == [e];
    }
  }

  lemma Stepwise(log: Log, n: nat, es: Log)
    requires n <= |log| && es != []
    ensures (log[..n] + [es[0]])[..n + 1] + es[1..] == log[..n] + es
  {
    assert es == [es[0]] + es[1..];
  }

  lemma OverwriteStep(base: nat, log: Log, es: Log)
    requires Numbered(base, log) && Appendable(base, log, es) && es != []
    ensures var log1 := Overwrite(base, log, [es[0]]);
            Appendable(base, log1, es[1..]) && Overwrite(base, log1, es[1..]) == Overwrite(base, log, es)
  {
    Stepwise(log, es[0].index - 1 - base, es);
  }

  /** Replaying a batch entry by entry comes to overwriting with it at once. */
  lemma {:induction false} FoldIsOverwrite(base: nat, log: Log, es: Log)
    requires Numbered(base, log) && Appendable(base, log, es)
    ensures Fold(base, log, es) == Some(Overwrite(base, log, es))
    decreases |es|
  {
    if es != [] {
      SupersedeIs(base, log, es[0]);
      OverwriteStep(base, log, es);
      FoldIsOverwrite(base, Overwrite(base, log, [es[0]]), es[1..]);
    }
  }

  // ---- histories ----

  datatype Op = Append(es: Log) | Rewrite(base: nat, es: Log)

  /** The file, and the log in memory that it stands for. */
  datatype Disk = Disk(base: nat, log: Log, file: Bytes)

  predicate CanDo(d: Disk, op: Op)
  {
    && AllStorable(op.es)
    && if op.Append? then Numbered(d.base, d.log) && Appendable(d.base, d.log, op.es) else Numbered(op.base, op.es)
  }

  function Do(crc: Crc, d: Disk, op: Op): Disk
    requires CanDo(d, op)
  {
    match op
    case Append(es) => Disk(d.base, Overwrite(d.base, d.log, es), d.file + Image(crc, es))
    case Rewrite(base, es) => Disk(base, es, Image(crc, es))
  }

  const FRESH := Disk(0, [], [])

  /** A sequence of operations, each one allowed where it stands. */
  predicate History(crc: Crc, ops: seq<Op>)
    decreases |ops|, 0
  {
    ops == [] || (History(crc, ops[..|ops| - 1]) && CanDo(After(crc, ops[..|ops| - 1]), ops[|ops| - 1]))
  }

  function After(crc: Crc, ops: seq<Op>): Disk
    requires History(crc, ops)
    decreases |ops|, 1
  {
    if ops == [] then FRESH else Do(crc, After(crc, ops[..|ops| - 1]), ops[|ops| - 1])
  }

  /** Everything in the file: what was appended since the last rewrite, superseded or not. */
  function Stored(ops: seq<Op>): Log
  {
    if ops == [] then []
    else
      match ops[|ops| - 1]
      case Append(es) => Stored(ops[..|ops| - 1]) + es
      case Rewrite(_, es) => es
  }

  /** The file is the image of what is stored, and folding that gives the log in memory. */
  lemma {:induction false} FileIs(crc: Crc, ops: seq<Op>)
    requires History(crc, ops)
    ensures var d := After(crc, ops);
            && d.file == Image(crc, Stored(ops)) && AllStorable(Stored(ops))
            && Numbered(d.base, d.log) && Fold(d.base, [], Stored(ops)) == Some(d.log)
  {
    if ops != [] {
      var before, op := ops[..|ops| - 1], ops[|ops| - 1];
      var d := After(crc, before);
      FileIs(crc, before);
      match op
      case Append(es) =>
        ImageConcat(crc, Stored(before), es);
        FoldConcat(d.base, [], Stored(before), es);
        FoldIsOverwrite(d.base, d.log, es);
      case Rewrite(base, es) =>
        FoldIsOverwrite(base, [], es);
        assert Overwrite(base, [], es) == es;
    }
  }

  lemma FoldsAfter(crc: Crc, ops: seq<Op>, es: Log)
    requires History(crc, ops) && Appendable(After(crc, ops).base, After(crc, ops).log, es)
    ensures var d := After(crc, ops);
            Numbered(d.base, d.log) && Fold(d.base, [], Stored(ops) + es) == Some(Overwrite(d.base, d.log, es))
  {
    var d := After(crc, ops);
    FileIs(crc, ops);
    FoldConcat(d.base, [], Stored(ops), es);
    FoldIsOverwrite(d.base, d.log, es);
  }

  // ---- recovery ----

  /** data holds exactly the records of es. */
  ghost predicate HoldsEntries(crc: Crc, data: Bytes, es: Log)
  {
    Holds(crc, data, ENTRY_HEADER_LEN, MAX_ENTRY_PAYLOAD, Payloads(es))
  }

  lemma OpenHolding(crc: Crc, data: Bytes, es: Log, base: nat, log: Log)
    requires HoldsEntries(crc, data, es) && AllStorable(es) && Fold(base, [], es) == Some(log)
    ensures Open(crc, data, base) == Opened(log, |Image(crc, es)|)
  {
    HoldsIs(crc, data, ENTRY_HEADER_LEN, MAX_ENTRY_PAYLOAD, Payloads(es));
    EntriesOfPayloads(es);
    ExtentIs(crc, Payloads(es));
  }

  /** What a file holds to which es, and then something unreadable, was written after a history. */
  lemma HoldsAfter(crc: Crc, ops: seq<Op>, es: Log, rest: Bytes, data: Bytes)
    requires History(crc, ops) && AllStorable(es) && HoldsEntries(crc, rest, [])
    requires data == After(crc, ops).file + (Image(crc, es) + rest)
    ensures HoldsEntries(crc, data, Stored(ops) + es) && AllStorable(Stored(ops) + es)
    ensures |Image(crc, Stored(ops) + es)| == |After(crc, ops).file| + |Image(crc, es)|
  {
    FileIs(crc, ops);
    var all := Stored(ops) + es;
    ImageConcat(crc, Stored(ops), es);
    Assoc(After(crc, ops).file, Image(crc, es), rest);
    PayloadsSized(all);
    HoldsFrames(crc, Payloads(all), rest, [], ENTRY_HEADER_LEN, MAX_ENTRY_PAYLOAD);
    assert Payloads(all) + [] == Payloads(all);
  }

  lemma OpenAfter(crc: Crc, ops: seq<Op>, es: Log, rest: Bytes, data: Bytes)
    requires History(crc, ops) && AllStorable(es) && HoldsEntries(crc, rest, [])
    requires Appendable(After(crc, ops).base, After(crc, ops).log, es)
    requires data == After(crc, ops).file + (Image(crc, es) + rest)
    ensures var d := After(crc, ops);
            && Numbered(d.base, d.log)
            && Open(crc, data, d.base) == Opened(Overwrite(d.base, d.log, es), |d.file| + |Image(crc, es)|)
  {
    var d := After(crc, ops);
    HoldsAfter(crc, ops, es, rest, data);
    FoldsAfter(crc, ops, es);
    OpenHolding(crc, data, Stored(ops) + es, d.base, Overwrite(d.base, d.log, es));
  }

  /** How many whole entries of es the first n bytes of its image hold. */
  function WholeEntries(crc: Crc, es: Log, n: nat): (k: nat)
    ensures k <= |es|
  {
    Whole(crc, Payloads(es), n)
  }

  lemma CutImage(crc: Crc, es: Log, n: nat) returns (rest: Bytes)
    requires n <= |Image(crc, es)| && AllStorable(es)
    ensures Image(crc, es)[..n] == Image(crc, es[..WholeEntries(crc, es, n)]) + rest && HoldsEntries(crc, rest, [])
  {
    var k := WholeEntries(crc, es, n);
    PayloadsSized(es);
    rest := CutReads(crc, Payloads(es), n, ENTRY_HEADER_LEN, MAX_ENTRY_PAYLOAD);
    assert es == es[..k] + es[k..];
    PayloadsConcat(es[..k], es[k..]);
    assert Payloads(es)[..k] == Payloads(es[..k]);
  }

  lemma PrefixAppendable(base: nat, log: Log, es: Log, k: nat)
    requires Numbered(base, log) && Appendable(base, log, es) && k <= |es|
    ensures Appendable(base, log, es[..k])
  {
  }

  lemma PrefixOf(a: Bytes, b: Bytes, c: Bytes)
    ensures a + b <= a + (b + c)
  {
  }

  /** Recovery: after any history and a crash n bytes into a further batch, opening the log gives the
      in-memory log with the batch's first k entries applied, where k counts the whole entries among
      those n bytes; and valid data ends where the file of that log would end. */
  lemma CrashRecovers(crc: Crc, ops: seq<Op>, es: Log, n: nat)
    requires History(crc, ops + [Append(es)]) && n <= |Image(crc, es)|
    ensures History(crc, ops) && CanDo(After(crc, ops), Append(es[..WholeEntries(crc, es, n)]))
    ensures var d, k := After(crc, ops), WholeEntries(crc, es, n);
            var d1 := Do(crc, d, Append(es[..k]));
            Open(crc, d.file + Image(crc, es)[..n], d.base) == Opened(d1.log, |d1.file|)
  {
    assert (ops + [Append(es)])[..|ops|] == ops;
    var d, k := After(crc, ops), WholeEntries(crc, es, n);
    FileIs(crc, ops);
    PrefixAppendable(d.base, d.log, es, k);
    var rest := CutImage(crc, es, n);
    OpenAfter(crc, ops, es[..k], rest, d.file + Image(crc, es)[..n]);
  }

  /** Cutting the file there leaves exactly the file of that log. */
  lemma CutFileIs(crc: Crc, file: Bytes, es: Log, n: nat)
    requires n <= |Image(crc, es)| && AllStorable(es)
    ensures file + Image(crc, es[..WholeEntries(crc, es, n)]) <= file + Image(crc, es)[..n]
  {
    var rest := CutImage(crc, es, n);
    PrefixOf(file, Image(crc, es[..WholeEntries(crc, es, n)]), rest);
  }

  /** A recovered log is the log of a history, so recovery can be followed by more of the same. */
  lemma HistoryContinues(crc: Crc, ops: seq<Op>, es: Log, k: nat)
    requires History(crc, ops + [Append(es)]) && k <= |es|
    ensures History(crc, ops + [Append(es[..k])]) && History(crc, ops)
    ensures After(crc, ops + [Append(es[..k])]) == Do(crc, After(crc, ops), Append(es[..k]))
  {
    assert (ops + [Append(es)])[..|ops|] == ops;
    assert (ops + [Append(es[..k])])[..|ops|] == ops;
    PrefixAppendable(After(crc, ops).base, After(crc, ops).log, es, k);
  }

  lemma NothingHolds(crc: Crc)
    ensures HoldsEntries(crc, [], [])
  {
  }

  /** Without a crash, opening the log gives back exactly the log in memory. */
  lemma CleanRecovers(crc: Crc, ops: seq<Op>)
    requires History(crc, ops)
    ensures var d := After(crc, ops); Open(crc, d.file, d.base) == Opened(d.log, |d.file|)
  {
    var d := After(crc, ops);
    FileIs(crc, ops);
    NothingHolds(crc);
    assert d.file + (Image(crc, []) + []) == d.file;
    OpenAfter(crc, ops, [], [], d.file);
  }

  /** A crash after a snapshot up to index s is durable and before the log is rewritten: the log is then
      opened against the new base s, and that is refused exactly when the file holds anything. A snapshot
      that covers an entry of the log is such a case. */
  lemma SnapshotBeforeRewrite(crc: Crc, ops: seq<Op>, s: nat)
    requires History(crc, ops) && After(crc, ops).base < s
    ensures Open(crc, After(crc, ops).file, s) == Refused <==> Stored(ops) != []
    ensures s <= After(crc, ops).base + |After(crc, ops).log| ==> Open(crc, After(crc, ops).file, s) == Refused
  {
    var d := After(crc, ops);
    FileIs(crc, ops);
    NothingHolds(crc);
    assert d.file + (Image(crc, []) + []) == d.file && Stored(ops) + [] == Stored(ops);
    HoldsAfter(crc, ops, [], [], d.file);
    HoldsIs(crc, d.file, ENTRY_HEADER_LEN, MAX_ENTRY_PAYLOAD, Payloads(Stored(ops)));
    EntriesOfPayloads(Stored(ops));
  }

  // ---- oversize entries ----

  /** The append path accepts commands of any length a 32-bit header can count. */
  predicate Framable(e: Entry)
  {
    Wide(e) && ENTRY_HEADER_LEN + |e.command| < U32
  }

  lemma OversizeHoldsNothing(crc: Crc, es: Log)
    requires es != [] && Framable(es[0]) && !Storable(es[0])
    ensures HoldsEntries(crc, Image(crc, es), [])
  {
    assert Payloads(es)[1..] == Payloads(es[1..]);
    ParseOversize(crc, Payload(es[0]), Image(crc, es[1..]), MAX_ENTRY_PAYLOAD);
  }

  lemma {:induction false} FirstOversize(es: Log) returns (j: nat)
    requires !AllStorable(es)
    ensures j < |es| && !Storable(es[j]) && AllStorable(es[..j])
  {
    if !Storable(es[0]) {
      j := 0;
    } else {
      var i := FirstOversize(es[1..]);
      j := i + 1;
      assert es[..j] == [es[0]] + es[1..][..i];
    }
  }

  lemma OversizeSplits(crc: Crc, es: Log, j: nat)
    requires j < |es| && Framable(es[j]) && !Storable(es[j])
    ensures Image(crc, es) == Image(crc, es[..j]) + Image(crc, es[j..]) && |Image(crc, es[j..])| > 0
    ensures HoldsEntries(crc, Image(crc, es[j..]), [])
  {
    assert es == es[..j] + es[j..];
    ImageConcat(crc, es[..j], es[j..]);
    OversizeHoldsNothing(crc, es[j..]);
  }

  lemma OversizeCutsShort(crc: Crc, ops: seq<Op>, es: Log, j: nat)
    requires History(crc, ops) && Appendable(After(crc, ops).base, After(crc, ops).log, es)
    requires j < |es| && Framable(es[j]) && !Storable(es[j]) && AllStorable(es[..j])
    ensures var d := After(crc, ops);
            && Numbered(d.base, d.log) && Appendable(d.base, d.log, es[..j])
            && Open(crc, d.file + Image(crc, es), d.base)
            == Opened(Overwrite(d.base, d.log, es[..j]), |d.file| + |Image(crc, es[..j])|)
            && |Image(crc, es[..j])| < |Image(crc, es)|
  {
    var d := After(crc, ops);
    FileIs(crc, ops);
    PrefixAppendable(d.base, d.log, es, j);
    OversizeSplits(crc, es, j);
    OpenAfter(crc, ops, es[..j], Image(crc, es[j..]), d.file + Image(crc, es));
  }

  /** A batch that was fully written is fully read back if and only if none of its commands is over
      64 MiB; the append path itself checks no such bound. */
  lemma BatchReadBackIff(crc: Crc, ops: seq<Op>, es: Log)
    requires History(crc, ops) && Numbered(After(crc, ops).base, After(crc, ops).log)
    requires Appendable(After(crc, ops).base, After(crc, ops).log, es) && forall e :: e in es ==> Framable(e)
    ensures var d := After(crc, ops);
            Open(crc, d.file + Image(crc, es), d.base)
            == Opened(Overwrite(d.base, d.log, es), |d.file + Image(crc, es)|)
            <==> forall e :: e in es ==> |e.command| <= MAX_COMMAND
  {
    if AllStorable(es) {
      assert (ops + [Append(es)])[..|ops|] == ops;
      CleanRecovers(crc, ops + [Append(es)]);
    } else {
      var j := FirstOversize(es);
      assert es[j] in es;
      OversizeCutsShort(crc, ops, es, j);
    }
  }

  // ---- the store as an object ----

  class LogStore {
    const crc: Crc
    /** The log file's contents; every change made here has been synced. */
    var file: Bytes

    constructor (crc: Crc, file: Bytes)
      ensures this.crc == crc && this.file == file
    {
      this.crc, this.file := crc, file;
    }

    /** The frames of es, in one buffer. */
    method FrameAll(es: Log) returns (b: Bytes)
      ensures b == Image(crc, es)
    {
      b := [];
      for i := 0 to |es|
        invariant b == Image(crc, es[..i])
      {
        assert es[..i + 1] == es[..i] + [es[i]];
        ImageConcat(crc, es[..i], [es[i]]);
        OneImage(crc, es[i]);
        b := b + Frame(crc, Payload(es[i]));
      }
      assert es[..|es|] == es;
    }

    method Append(es: Log) returns (ok: bool)
      modifies `file
      ensures ok <==> forall i :: 0 < i < |es| ==> es[i].index == es[i - 1].index + 1
      ensures file == old(file) + if ok then Image(crc, es) else []
    {
      if |es| == 0 {
        assert file + [] == file;
        return true;
      }
      for i := 1 to |es|
        invariant forall j :: 0 < j < i && j < |es| ==> es[j].index == es[j - 1].index + 1
        invariant file == old(file)
      {
        if es[i].index != es[i - 1].index + 1 { return false; }
      }
      var b := FrameAll(es);
      file := file + b;
      ok := true;
    }

    /** Replace the whole file, as compaction and snapshot installation do. */
    method Rewrite(es: Log)
      modifies `file
      ensures file == Image(crc, es)
    {
      file := FrameAll(es);
    }
  }

  lemma OneImage(crc: Crc, e: Entry)
    ensures Image(crc, [e]) == Frame(crc, Payload(e))
  {
    assert Payloads([e]) == [Payload(e)];
    assert Frames(crc, [Payload(e)]) == Frame(crc, Payload(e)) + [];
  }

  method OpenLog(crc: Crc, data: Bytes, base: nat) returns (r: Opened)
    ensures r == Open(crc, data, base)
  {
    var entries: Log, off := [], 0;
    ghost var ps: seq<Bytes> := [];
    assert data[0..] == data && [] + LogRecords(crc, data) == LogRecords(crc, data);
    while off < |data|
      invariant Scanned(crc, data, base, ps, off, Some(entries))
    {
      var parsed := Parse(crc, data[off..], MAX_ENTRY_PAYLOAD);
      if parsed.None? || |parsed.value| < ENTRY_HEADER_LEN {
        break;
      }
      var p := parsed.value;
      var next := Supersede(base, entries, ReadEntry(p));
      ScansOn(crc, data, base, ps, off, entries, p);
      off := off + HEADER_SIZE + |p|;
      ps := ps + [p];
      if next.None? {
        RefusedStays(base, ps, LogRecords(crc, data[off..]));
        return Refused;
      }
      entries := next.value;
    }
    assert LogRecords(crc, data[off..]) == [] && ps + [] == ps;
    r := Opened(entries, off);
  }

  /** The file starts with records of these payloads, which end at offset off and fold to this log. */
  ghost predicate Scanned(crc: Crc, data: Bytes, base: nat, ps: seq<Bytes>, off: nat, log: Option<Log>)
  {
    && off <= |data| && LogRecords(crc, data) == ps + LogRecords(crc, data[off..])
    && Extent(ps) == off && Fold(base, [], Entries(ps)) == log
  }

  lemma ScansOn(crc: Crc, data: Bytes, base: nat, ps: seq<Bytes>, off: nat, log: Log, p: Bytes)
    requires Scanned(crc, data, base, ps, off, Some(log))
    requires Parse(crc, data[off..], MAX_ENTRY_PAYLOAD) == Some(p) && |p| >= ENTRY_HEADER_LEN
    ensures Scanned(crc, data, base, ps + [p], off + HEADER_SIZE + |p|, Supersede(base, log, ReadEntry(p)))
  {
    OneMore(crc, data, off, ps, p, ENTRY_HEADER_LEN, MAX_ENTRY_PAYLOAD);
    FoldsOn(base, ps, p, log);
  }

  lemma FoldsOn(base: nat, ps: seq<Bytes>, p: Bytes, log: Log)
    requires |p| >= ENTRY_HEADER_LEN && Fold(base, [], Entries(ps)) == Some(log)
    ensures Fold(base, [], Entries(ps + [p])) == Supersede(base, log, ReadEntry(p))
    ensures Extent(ps + [p]) == Extent(ps) + HEADER_SIZE + |p|
  {
    EntriesSplit(ps, [p]);
    assert Entries([p]) == [ReadEntry(p)] && [ReadEntry(p)][1..] == [];
    ExtentConcat(ps, p);
    FoldConcat(base, [], Entries(ps), [ReadEntry(p)]);
  }

  lemma RefusedStays(base: nat, ps: seq<Bytes>, qs: seq<Bytes>)
    requires Fold(base, [], Entries(ps)) == None
    ensures Fold(base, [], Entries(ps + qs)) == None
  {
    EntriesSplit(ps, qs);
    FoldConcat(base, [], Entries(ps), Entries(qs));
  }

  lemma {:induction false} EntriesSplit(ps: seq<Bytes>, qs: seq<Bytes>)
    ensures Entries(ps + qs) == Entries(ps) + Entries(qs)
  {
    if ps == [] {
      assert ps + qs == qs;
    } else {
      assert (ps + qs)[1..] == ps[1..] + qs && (ps + qs)[0] == ps[0];
      EntriesSplit(ps[1..], qs);
      Regroup(if |ps[0]| < ENTRY_HEADER_LEN then [] else [ReadEntry(ps[0])], Entries(ps[1..]), Entries(qs));
    }
  }
}
