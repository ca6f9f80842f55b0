/** CRC-framed records: a payload length, a checksum and the payload.

    The checksum is a parameter: everything here holds whatever function of the payload it is. A torn
    record is recognized by its length alone. */
module Record {
  import opened RaftLog
  import opened ByteCode

  newtype uint32 = n: int | 0 <= n < 0x1_0000_0000

  type Crc = Bytes -> uint32

  const HEADER_SIZE := 8

  function Frame(crc: Crc, payload: Bytes): (b: Bytes)
    ensures |b| == HEADER_SIZE + |payload|
  {
    Put(|payload|, 4) + Put(crc(payload) as nat, 4) + payload
  }

  /** The payload of the record at the front of b, if b starts with a whole, valid one; the record takes
      HEADER_SIZE bytes more than its payload. */
  function Parse(crc: Crc, b: Bytes, maxPayload: nat): (r: Option<Bytes>)
    ensures r.Some? ==> |r.value| <= maxPayload && HEADER_SIZE + |r.value| <= |b|
  {
    if |b| < HEADER_SIZE then None
    else
      var n := Get(b[..4]);
      if n > maxPayload || |b| < HEADER_SIZE + n then None
      else
        var payload := b[HEADER_SIZE..HEADER_SIZE + n];
        if crc(payload) as nat != Get(b[4..8]) then None else Some(payload)
  }

  lemma Parts(h: Bytes, c: Bytes, p: Bytes, rest: Bytes)
    requires |h| == 4 && |c| == 4
    ensures var b := h + c + p + rest; b[..4] == h && b[4..8] == c && b[HEADER_SIZE..] == p + rest
  {
  }

  lemma FrameParts(crc: Crc, p: Bytes, rest: Bytes)
    ensures var b := Frame(crc, p) + rest;
            Get(b[..4]) == |p| % U32 && Get(b[4..8]) == crc(p) as nat && b[HEADER_SIZE..] == p + rest
  {
    Parts(Put(|p|, 4), Put(crc(p) as nat, 4), p, rest);
    Spans();
    GetPut(|p|, 4);
    Fits(crc(p) as nat, 4);
  }

  /** A framed payload is read back, whatever follows it, if and only if it is not over the bound. */
  lemma ParseFrame(crc: Crc, p: Bytes, rest: Bytes, maxPayload: nat)
    requires maxPayload < U32
    ensures Parse(crc, Frame(crc, p) + rest, maxPayload) == Some(p) <==> |p| <= maxPayload
  {
    var b := Frame(crc, p) + rest;
    FrameParts(crc, p, rest);
    if |p| <= maxPayload {
      assert b[HEADER_SIZE..HEADER_SIZE + |p|] == (p + rest)[..|p|] == p;
    }
  }

  /** Over the bound, the record ends whatever is being read. */
  lemma ParseOversize(crc: Crc, p: Bytes, rest: Bytes, maxPayload: nat)
    requires maxPayload < |p| < U32
    ensures Parse(crc, Frame(crc, p) + rest, maxPayload) == None
  {
    FrameParts(crc, p, rest);
  }

  /** No proper prefix of a record is a record. */
  lemma ParseTorn(crc: Crc, p: Bytes, n: nat, maxPayload: nat)
    requires |p| < U32 && n < |Frame(crc, p)|
    ensures Parse(crc, Frame(crc, p)[..n], maxPayload) == None
  {
    var b := Frame(crc, p)[..n];
    if HEADER_SIZE <= n {
      FrameParts(crc, p, []);
      assert Frame(crc, p) + [] == Frame(crc, p);
      assert b[..4] == Frame(crc, p)[..4];
    }
  }

  /** What is read is what was framed: a string that parses starts with the frame of its payload. */
  lemma ParseIsFrame(crc: Crc, b: Bytes, maxPayload: nat)
    requires maxPayload < U32 && Parse(crc, b, maxPayload).Some?
    ensures var p := Parse(crc, b, maxPayload).value; b[..HEADER_SIZE + |p|] == Frame(crc, p)
  {
    var p := Parse(crc, b, maxPayload).value;
    PutGet(b[..4]);
    PutGet(b[4..8]);
    assert b[..HEADER_SIZE + |p|] == b[..4] + b[4..8] + p;
  }

  // ---- files of records ----

  /** The bytes of a run of records. */
  function Frames(crc: Crc, ps: seq<Bytes>): Bytes
  {
    if ps == [] then [] else Frame(crc, ps[0]) + Frames(crc, ps[1..])
  }

  /** The payloads of the records at the front of data, up to the first that is torn, invalid, or not
      between the given sizes. */
  function Records(crc: Crc, data: Bytes, least: nat, most: nat): seq<Bytes>
    decreases |data|
  {
    match Parse(crc, data, most)
    case None => []
    case Some(p) => if |p| < least then [] else [p] + Records(crc, data[HEADER_SIZE + |p|..], least, most)
  }

  /** How many bytes the records of these payloads take. */
  function Extent(ps: seq<Bytes>): nat
  {
    if ps == [] then 0 else HEADER_SIZE + |ps[0]| + Extent(ps[1..])
  }

  predicate Sized(ps: seq<Bytes>, least: nat, most: nat)
  {
    forall p :: p in ps ==> least <= |p| <= most
  }

  lemma Assoc(a: Bytes, b: Bytes, c: Bytes)
    ensures (a + b) + c == a + (b + c)
  {
  }

  lemma {:induction false} FramesConcat(crc: Crc, a: seq<Bytes>, b: seq<Bytes>)
    ensures Frames(crc, a + b) == Frames(crc, a) + Frames(crc, b)
  {
    if a == [] {
      assert a + b == b;
    } else {
      assert (a + b)[0] == a[0] && (a + b)[1..] == a[1..] + b;
      FramesConcat(crc, a[1..], b);
      Assoc(Frame(crc, a[0]), Frames(crc, a[1..]), Frames(crc, b));
    }
  }

  lemma {:induction false} ExtentIs(crc: Crc, ps: seq<Bytes>)
    ensures Extent(ps) == |Frames(crc, ps)|
  {
    if ps != [] { ExtentIs(crc, ps[1..]); }
  }

  lemma RecordsFrame(crc: Crc, p: Bytes, rest: Bytes, least: nat, most: nat)
    requires least <= |p| <= most < U32
    ensures Records(crc, Frame(crc, p) + rest, least, most) == [p] + Records(crc, rest, least, most)
  {
    ParseFrame(crc, p, rest, most);
    assert (Frame(crc, p) + rest)[HEADER_SIZE + |p|..] == rest;
  }

  predicate AreRecords(crc: Crc, data: Bytes, least: nat, most: nat, ps: seq<Bytes>)
  {
    Records(crc, data, least, most) == ps
  }

  /** The readable part of data is exactly ps. (Said of whatever the records are, so that only proofs that
      name them go through the bytes.) */
  ghost predicate Holds(crc: Crc, data: Bytes, least: nat, most: nat, ps: seq<Bytes>)
  {
    forall qs {:trigger AreRecords(crc, data, least, most, qs)} :: AreRecords(crc, data, least, most, qs) ==> qs == ps
  }

  lemma HoldsIs(crc: Crc, data: Bytes, least: nat, most: nat, ps: seq<Bytes>)
    requires Holds(crc, data, least, most, ps)
    ensures Records(crc, data, least, most) == ps
  {
    assert AreRecords(crc, data, least, most, Records(crc, data, least, most));
  }

  lemma HoldsFrame(crc: Crc, p: Bytes, rest: Bytes, qs: seq<Bytes>, least: nat, most: nat)
    requires least <= |p| <= most < U32 && Holds(crc, rest, least, most, qs)
    ensures Holds(crc, Frame(crc, p) + rest, least, most, [p] + qs)
  {
    HoldsIs(crc, rest, least, most, qs);
    RecordsFrame(crc, p, rest, least, most);
  }

  /** What was framed is what is read, before whatever follows it. */
  lemma {:induction false} HoldsFrames(crc: Crc, ps: seq<Bytes>, tail: Bytes, qs: seq<Bytes>, least: nat, most: nat)
    requires most < U32 && Sized(ps, least, most) && Holds(crc, tail, least, most, qs)
    ensures Holds(crc, Frames(crc, ps) + tail, least, most, ps + qs)
  {
    if ps == [] {
      assert [] + tail == tail && ps + qs == qs;
    } else {
      assert ps[0] in ps;
      var f, more := Frame(crc, ps[0]), Frames(crc, ps[1..]);
      Assoc(f, more, tail);
      HoldsFrames(crc, ps[1..], tail, qs, least, most);
      HoldsFrame(crc, ps[0], more + tail, ps[1..] + qs, least, most);
      assert [ps[0]] + (ps[1..] + qs) == ps + qs;
    }
  }

  /** The readable part lies within the data. */
  lemma {:induction false} ExtentFits(crc: Crc, data: Bytes, least: nat, most: nat)
    ensures Extent(Records(crc, data, least, most)) <= |data|
    decreases |data|
  {
    match Parse(crc, data, most)
    case None =>
    case Some(p) =>
      if |p| >= least {
        ExtentFits(crc, data[HEADER_SIZE + |p|..], least, most);
        assert Records(crc, data, least, most)[1..] == Records(crc, data[HEADER_SIZE + |p|..], least, most);
      }
  }

  lemma RecordsStep(crc: Crc, b: Bytes, p: Bytes, least: nat, most: nat)
    requires Parse(crc, b, most) == Some(p) && |p| >= least
    ensures Records(crc, b, least, most) == [p] + Records(crc, b[HEADER_SIZE + |p|..], least, most)
  {
  }

  lemma DropDrop(b: Bytes, m: nat, n: nat)
    requires m + n <= |b|
    ensures b[m..][n..] == b[m + n..]
  {
  }

  /** A reader at offset off, with ps read so far, reads one more record. */
  lemma OneMore(crc: Crc, data: Bytes, off: nat, ps: seq<Bytes>, p: Bytes, least: nat, most: nat)
    requires off <= |data| && Records(crc, data, least, most) == ps + Records(crc, data[off..], least, most)
    requires Parse(crc, data[off..], most) == Some(p) && |p| >= least
    ensures Records(crc, data, least, most) == (ps + [p]) + Records(crc, data[off + HEADER_SIZE + |p|..], least, most)
  {
    RecordsStep(crc, data[off..], p, least, most);
    DropDrop(data, off, HEADER_SIZE + |p|);
    Regroup(ps, [p], Records(crc, data[off + HEADER_SIZE + |p|..], least, most));
  }

  lemma Regroup<T>(a: seq<T>, b: seq<T>, c: seq<T>)
    ensures a + (b + c) == (a + b) + c
  {
  }

  lemma {:induction false} ExtentConcat(ps: seq<Bytes>, p: Bytes)
    ensures Extent(ps + [p]) == Extent(ps) + HEADER_SIZE + |p|
  {
    if ps == [] {
      assert ps + [p] == [p];
    } else {
      assert (ps + [p])[1..] == ps[1..] + [p];
      ExtentConcat(ps[1..], p);
    }
  }

  // ---- crashes ----

  /** How many whole records the first n bytes of the frames of ps hold. */
  function Whole(crc: Crc, ps: seq<Bytes>, n: nat): (k: nat)
    ensures k <= |ps|
  {
    if ps == [] || n < |Frame(crc, ps[0])| then 0 else 1 + Whole(crc, ps[1..], n - |Frame(crc, ps[0])|)
  }

  /** Nothing, or a proper prefix of one frame. */
  predicate Torn(crc: Crc, ps: seq<Bytes>, k: nat, rest: Bytes)
  {
    rest == [] || (k < |ps| && |rest| < |Frame(crc, ps[k])| && rest == Frame(crc, ps[k])[..|rest|])
  }

  lemma {:induction false} CutFrames(crc: Crc, ps: seq<Bytes>, n: nat) returns (rest: Bytes)
    requires n <= |Frames(crc, ps)|
    ensures var k := Whole(crc, ps, n);
            Frames(crc, ps)[..n] == Frames(crc, ps[..k]) + rest && Torn(crc, ps, k, rest)
  {
    var k := Whole(crc, ps, n);
    if ps == [] {
      rest := [];
    } else {
      var f := Frame(crc, ps[0]);
      if n < |f| {
        rest := f[..n];
        assert Frames(crc, ps)[..n] == rest && ps[..0] == [];
      } else {
        rest := CutFrames(crc, ps[1..], n - |f|);
        assert ps[..k][1..] == ps[1..][..k - 1];
        assert Frames(crc, ps)[..n] == f + Frames(crc, ps[1..])[..n - |f|];
        Assoc(f, Frames(crc, ps[1..][..k - 1]), rest);
      }
    }
  }

  /** After n bytes of a run of records have been written, what can be read is its whole records. */
  lemma CutReads(crc: Crc, ps: seq<Bytes>, n: nat, least: nat, most: nat) returns (rest: Bytes)
    requires n <= |Frames(crc, ps)| && most < U32 && Sized(ps, least, most)
    ensures Frames(crc, ps)[..n] == Frames(crc, ps[..Whole(crc, ps, n)]) + rest && Holds(crc, rest, least, most, [])
  {
    rest := CutFrames(crc, ps, n);
    var k := Whole(crc, ps, n);
    if rest != [] {
      assert ps[k] in ps;
      ParseTorn(crc, ps[k], |rest|, most);
    }
  }
}
