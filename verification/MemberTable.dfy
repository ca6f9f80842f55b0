/** The wire form of a membership table, as snapshots carry it: a count, then one row per member. */
module MemberTable {
  import opened RaftLog
  import opened ByteCode
  import opened Record
  import opened Membership

  datatype Row = Row(id: Id, addr: Bytes)

  function EncodeRow(r: Row): (b: Bytes)
    ensures |b| == 12 + |r.addr|
  {
    Put(r.id, 8) + Put(|r.addr|, 4) + r.addr
  }

  function EncodeRows(rows: seq<Row>): Bytes
  {
    if rows == [] then [] else EncodeRow(rows[0]) + EncodeRows(rows[1..])
  }

  function EncodeMembers(rows: seq<Row>): Bytes
  {
    Put(|rows|, 4) + EncodeRows(rows)
  }

  /** The row at the front of b, if there is a whole one. */
  function DecodeRow(b: Bytes): (r: Option<Row>)
    ensures r.Some? ==> 12 + |r.value.addr| <= |b|
  {
    if |b| < 12 then None
    else
      var n := Get(b[8..12]);
      if |b| - 12 < n then None else Some(Row(Get(b[..8]), b[12..12 + n]))
  }

  /** Read count rows into t; what follows them is not looked at. */
  function DecodeRows(b: Bytes, count: nat, t: Table): Option<Table>
    decreases count
  {
    if count == 0 then Some(t)
    else
      match DecodeRow(b)
      case None => None
      case Some(r) => DecodeRows(b[12 + |r.addr|..], count - 1, t[r.id := r.addr])
  }

  function DecodeMembers(b: Bytes): Option<Table>
  {
    if |b| < 4 then None else DecodeRows(b[4..], Get(b[..4]), map[])
  }

  function Load(t: Table, rows: seq<Row>): Table
    decreases |rows|
  {
    if rows == [] then t else Load(t[rows[0].id := rows[0].addr], rows[1..])
  }

  predicate Fitting(rows: seq<Row>)
  {
    |rows| < U32 && forall r :: r in rows ==> r.id < U64 && |r.addr| < U32
  }

  lemma RowParts(i: Bytes, n: Bytes, a: Bytes, rest: Bytes)
    requires |i| == 8 && |n| == 4
    ensures var b := i + n + a + rest; b[..8] == i && b[8..12] == n && b[12..12 + |a|] == a && b[12 + |a|..] == rest
  {
  }

  lemma RowReadsBack(r: Row, rest: Bytes)
    requires r.id < U64 && |r.addr| < U32
    ensures DecodeRow(EncodeRow(r) + rest) == Some(r) && (EncodeRow(r) + rest)[12 + |r.addr|..] == rest
  {
    Spans();
    Fits(r.id, 8);
    Fits(|r.addr|, 4);
    RowParts(Put(r.id, 8), Put(|r.addr|, 4), r.addr, rest);
  }

  lemma {:induction false} RowsReadBack(rows: seq<Row>, rest: Bytes, t: Table)
    requires forall r :: r in rows ==> r.id < U64 && |r.addr| < U32
    ensures DecodeRows(EncodeRows(rows) + rest, |rows|, t) == Some(Load(t, rows))
    decreases |rows|
  {
    if rows != [] {
      var r, more := rows[0], EncodeRows(rows[1..]);
      assert r in rows;
      Assoc(EncodeRow(r), more, rest);
      RowReadsBack(r, more + rest);
      RowsReadBack(rows[1..], rest, t[r.id := r.addr]);
    }
  }

  /** rows is a listing of t: every member once, with its address. */
  ghost predicate Lists(rows: seq<Row>, t: Table)
  {
    && (forall i, j :: 0 <= i < j < |rows| ==> rows[i].id != rows[j].id)
    && (forall r :: r in rows ==> r.id in t && t[r.id] == r.addr)
    && (forall id :: id in t ==> Row(id, t[id]) in rows)
  }

  lemma {:induction false} LoadHas(t: Table, rows: seq<Row>, id: Id)
    requires forall i, j :: 0 <= i < j < |rows| ==> rows[i].id != rows[j].id
    ensures (exists a :: Row(id, a) in rows) ==> id in Load(t, rows) && Row(id, Load(t, rows)[id]) in rows
    ensures !(exists a :: Row(id, a) in rows) ==> (id in Load(t, rows) <==> id in t) && (id in t ==> Load(t, rows)[id] == t[id])
    decreases |rows|
  {
    if rows != [] {
      var r := rows[0];
      LoadHas(t[r.id := r.addr], rows[1..], id);
      if exists a :: Row(id, a) in rows {
        var a :| Row(id, a) in rows;
        if r.id == id {
          assert forall x :: x in rows[1..] ==> x.id != id;
          assert r == Row(id, r.addr);
        } else {
          assert Row(id, a) in rows[1..];
        }
      } else {
        assert r != Row(id, r.addr) || r.id != id;
        assert forall a :: Row(id, a) in rows[1..] ==> Row(id, a) in rows;
      }
    }
  }

  lemma LoadsListing(rows: seq<Row>, t: Table)
    requires Lists(rows, t)
    ensures Load(map[], rows) == t
  {
    var m := Load(map[], rows);
    forall id: Id
      ensures (id in m <==> id in t) && (id in m ==> m[id] == t[id])
    {
      LoadHas(map[], rows, id);
    }
  }

  /** A membership table survives encoding, in whatever order its rows are listed. */
  lemma TableReadsBack(rows: seq<Row>, t: Table)
    requires Lists(rows, t) && Fitting(rows)
    ensures DecodeMembers(EncodeMembers(rows)) == Some(t)
  {
    Spans();
    Fits(|rows|, 4);
    var b := EncodeMembers(rows);
    assert b[..4] == Put(|rows|, 4) && b[4..] == EncodeRows(rows);
    assert EncodeRows(rows) + [] == EncodeRows(rows);
    RowsReadBack(rows, [], map[]);
    LoadsListing(rows, t);
  }

  /** decodeMembers as the loop it is. */
  method ReadMembers(b: Bytes) returns (t: Option<Table>)
    ensures t == DecodeMembers(b)
  {
    if |b| < 4 { return None; }
    var count, rest := Get(b[..4]), b[4..];
    var m: Table := map[];
    while count > 0
      invariant DecodeRows(rest, count, m) == DecodeMembers(b)
    {
      if |rest| < 12 { return None; }
      var n := Get(rest[8..12]);
      if |rest| - 12 < n { return None; }
      m := m[Get(rest[..8]) := rest[12..12 + n]];
      rest := rest[12 + n..];
      count := count - 1;
    }
    t := Some(m);
  }

  /** encodeMembers' loop over an ordered listing. */
  method WriteMembers(rows: seq<Row>) returns (b: Bytes)
    ensures b == EncodeMembers(rows)
  {
    b := Put(|rows|, 4);
    assert b + EncodeRows([]) == b;
    for i := 0 to |rows|
      invariant b == Put(|rows|, 4) + EncodeRows(rows[..i])
    {
      RowsGrow(rows, i);
      Assoc(Put(|rows|, 4), EncodeRows(rows[..i]), EncodeRow(rows[i]));
      b := b + EncodeRow(rows[i]);
    }
    assert rows[..|rows|] == rows;
  }

  lemma RowsGrow(rows: seq<Row>, i: nat)
    requires i < |rows|
    ensures EncodeRows(rows[..i + 1]) == EncodeRows(rows[..i]) + EncodeRow(rows[i])
  {
    assert rows[..i + 1] == rows[..i] + [rows[i]];
    RowsConcat(rows[..i], [rows[i]]);
    assert EncodeRows([rows[i]]) == EncodeRow(rows[i]) + [];
  }

  lemma Rejoin(x: Bytes, y: Bytes, z: Bytes, yz: Bytes)
    requires yz == y + z
    ensures x + yz == (x + y) + z
  {
  }

  lemma {:induction false} RowsConcat(a: seq<Row>, b: seq<Row>)
    ensures EncodeRows(a + b) == EncodeRows(a) + EncodeRows(b)
  {
    if a == [] {
      assert a + b == b;
    } else {
      assert (a + b)[0] == a[0] && (a + b)[1..] == a[1..] + b;
      RowsConcat(a[1..], b);
      Rejoin(EncodeRow(a[0]), EncodeRows(a[1..]), EncodeRows(b), EncodeRows(a[1..] + b));
    }
  }
}
