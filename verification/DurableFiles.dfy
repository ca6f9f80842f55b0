/** The two small files a Raft node replaces as a whole: its term and vote, and its snapshot.

    Each reader accepts exactly what the writer produces, and nothing else. */
module DurableFiles {
  import opened RaftLog
  import opened ByteCode
  import opened Record

  /** A body followed by its checksum. */
  function Seal(crc: Crc, body: Bytes): (b: Bytes)
    ensures |b| == |body| + 4
  {
    body + Put(crc(body) as nat, 4)
  }

  predicate Sealed(crc: Crc, b: Bytes)
  {
    |b| >= 4 && crc(b[..|b| - 4]) as nat == Get(b[|b| - 4..])
  }

  /** A byte string passes the checksum test if and only if it is a sealed body. */
  lemma SealedIff(crc: Crc, b: Bytes, body: Bytes)
    ensures |b| >= 4 ==> (Sealed(crc, b) && b[..|b| - 4] == body <==> b == Seal(crc, body))
  {
    var c := crc(body) as nat;
    Spans();
    Fits(c, 4);
    if |b| >= 4 {
      var tail := b[|b| - 4..];
      PutGet(tail);
      assert b == b[..|b| - 4] + tail;
      if b == Seal(crc, body) {
        assert b[..|b| - 4] == body && tail == Put(c, 4);
      }
    }
  }

  // ---- term and vote ----

  /** "RKVVOTE1" */
  const STATE_MAGIC: Bytes := [82, 75, 86, 86, 79, 84, 69, 49]
  const STATE_FILE_SIZE := 28

  function StateBody(term: nat, vote: Id): (b: Bytes)
    ensures |b| == 24
  {
    STATE_MAGIC + Put(term, 8) + Put(vote, 8)
  }

  function SaveTermAndVote(crc: Crc, term: nat, vote: Id): (b: Bytes)
    ensures |b| == STATE_FILE_SIZE
  {
    Seal(crc, StateBody(term, vote))
  }

  datatype Vote = Vote(term: nat, vote: Id) | Unreadable

  function ReadVote(b: Bytes): Vote
    requires |b| == 24
  {
    if b[..8] != STATE_MAGIC then Unreadable else Vote(Get(b[8..16]), Get(b[16..24]))
  }

  /** A node without the file has never voted; a file that is not intact stops it from starting. */
  function LoadTermAndVote(crc: Crc, file: Option<Bytes>): Vote
  {
    match file
    case None => Vote(0, NO_NODE)
    case Some(b) => if |b| != STATE_FILE_SIZE || !Sealed(crc, b) then Unreadable else ReadVote(b[..24])
  }

  lemma StateParts(a: Bytes, t: Bytes, v: Bytes)
    requires |a| == 8 && |t| == 8 && |v| == 8
    ensures var b := a + t + v; b[..8] == a && b[8..16] == t && b[16..24] == v
  {
  }

  lemma VoteReadsBack(term: nat, vote: Id)
    requires term < U64 && vote < U64
    ensures ReadVote(StateBody(term, vote)) == Vote(term, vote)
  {
    Spans();
    StateParts(STATE_MAGIC, Put(term, 8), Put(vote, 8));
    Fits(term, 8);
    Fits(vote, 8);
  }

  lemma VoteWasWritten(b: Bytes)
    requires |b| == 24 && ReadVote(b).Vote?
    ensures var v := ReadVote(b); StateBody(v.term, v.vote) == b && v.term < U64 && v.vote < U64
  {
    Spans();
    Rewrites(b[8..16], 8);
    Rewrites(b[16..24], 8);
    Thirds(b);
  }

  lemma Thirds(b: Bytes)
    requires |b| == 24
    ensures b == b[..8] + b[8..16] + b[16..24]
  {
  }

  /** A vote that was saved is loaded, unchanged; and nothing but a saved vote is ever loaded. */
  lemma VoteLoadsIff(crc: Crc, b: Bytes, term: nat, vote: Id)
    ensures LoadTermAndVote(crc, Some(b)) == Vote(term, vote)
            <==> term < U64 && vote < U64 && b == SaveTermAndVote(crc, term, vote)
  {
    SealedIff(crc, b, StateBody(term, vote));
    if |b| >= 4 {
      SealedIff(crc, b, b[..|b| - 4]);
    }
    if term < U64 && vote < U64 && b == SaveTermAndVote(crc, term, vote) {
      VoteReadsBack(term, vote);
    }
    if LoadTermAndVote(crc, Some(b)) == Vote(term, vote) {
      VoteWasWritten(b[..24]);
    }
  }

  // ---- the snapshot ----

  /** "RKVRSNP1" */
  const SNAP_MAGIC: Bytes := [82, 75, 86, 82, 83, 78, 80, 49]
  const SNAP_HEADER := 28

  /** The membership table in its encoded form, and the state machine's image. */
  datatype Raw = Raw(lastIndex: nat, lastTerm: nat, config: Bytes, data: Bytes)

  function SnapBody(s: Raw): (b: Bytes)
    ensures |b| == SNAP_HEADER + |s.config| + |s.data|
  {
    SNAP_MAGIC + Put(s.lastIndex, 8) + Put(s.lastTerm, 8) + Put(|s.config|, 4) + s.config + s.data
  }

  function SaveSnapshot(crc: Crc, s: Raw): Bytes
  {
    Seal(crc, SnapBody(s))
  }

  function ReadSnapBody(b: Bytes): Option<Raw>
  {
    if |b| < SNAP_HEADER || b[..8] != SNAP_MAGIC then None
    else
      var n := Get(b[24..28]);
      if |b| < SNAP_HEADER + n then None
      else Some(Raw(Get(b[8..16]), Get(b[16..24]), b[28..28 + n], b[28 + n..]))
  }

  function LoadSnapshot(crc: Crc, b: Bytes): Option<Raw>
  {
    if |b| < SNAP_HEADER + 4 || !Sealed(crc, b) then None else ReadSnapBody(b[..|b| - 4])
  }

  lemma SnapParts(m: Bytes, i: Bytes, t: Bytes, n: Bytes, c: Bytes, d: Bytes)
    requires |m| == |i| == |t| == 8 && |n| == 4
    ensures var b := m + i + t + n + c + d;
            && b[..8] == m && b[8..16] == i && b[16..24] == t && b[24..28] == n
            && b[28..28 + |c|] == c && b[28 + |c|..] == d
  {
  }

  /** The fields of a snapshot fit their widths. */
  predicate Fitting(s: Raw)
  {
    s.lastIndex < U64 && s.lastTerm < U64 && |s.config| < U32
  }

  lemma BodyReadsBack(s: Raw)
    requires Fitting(s)
    ensures ReadSnapBody(SnapBody(s)) == Some(s)
  {
    Spans();
    SnapParts(SNAP_MAGIC, Put(s.lastIndex, 8), Put(s.lastTerm, 8), Put(|s.config|, 4), s.config, s.data);
    Fits(s.lastIndex, 8);
    Fits(s.lastTerm, 8);
    Fits(|s.config|, 4);
  }

  lemma BodyWasWritten(b: Bytes)
    requires ReadSnapBody(b).Some?
    ensures SnapBody(ReadSnapBody(b).value) == b && Fitting(ReadSnapBody(b).value)
  {
    Spans();
    var n := Get(b[24..28]);
    Rewrites(b[8..16], 8);
    Rewrites(b[16..24], 8);
    Rewrites(b[24..28], 4);
    Sixths(b, n);
  }

  lemma Sixths(b: Bytes, n: nat)
    requires 28 + n <= |b|
    ensures b == b[..8] + b[8..16] + b[16..24] + b[24..28] + b[28..28 + n] + b[28 + n..]
  {
  }

  /** A snapshot that was saved is loaded, unchanged; and nothing but a saved snapshot is ever loaded. */
  lemma SnapshotLoadsIff(crc: Crc, b: Bytes, s: Raw)
    ensures LoadSnapshot(crc, b) == Some(s) <==> Fitting(s) && b == SaveSnapshot(crc, s)
  {
    SealedIff(crc, b, SnapBody(s));
    if |b| >= 4 {
      SealedIff(crc, b, b[..|b| - 4]);
    }
    if Fitting(s) && b == SaveSnapshot(crc, s) {
      BodyReadsBack(s);
    }
    if LoadSnapshot(crc, b) == Some(s) {
      BodyWasWritten(b[..|b| - 4]);
    }
  }
}
