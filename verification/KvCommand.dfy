/** Mutations of the key-value map, their wire form, and the session envelope around them.

    Each decoder accepts exactly the encodings of well-formed values. Keys and values are byte strings. */
module KvCommand {
  import opened RaftLog
  import opened ByteCode

  type Kv = map<Bytes, Bytes>

  const OP_PUT: byte := 1
  const OP_DELETE: byte := 2

  datatype Command = Command(op: byte, key: Bytes, value: Bytes)

  function Encode(c: Command): (b: Bytes)
    ensures |b| == 9 + |c.key| + |c.value|
  {
    [c.op] + Put(|c.key|, 4) + c.key + Put(|c.value|, 4) + c.value
  }

  function Decode(b: Bytes): Option<Command>
  {
    if |b| < 5 || (b[0] != OP_PUT && b[0] != OP_DELETE) then None
    else
      var n := Get(b[1..5]);
      if |b| - 5 < n + 4 then None
      else
        var m := Get(b[5 + n..9 + n]);
        if |b| - 9 - n != m then None else Some(Command(b[0], b[5..5 + n], b[9 + n..]))
  }

  /** A command whose fields fit the wire form. */
  predicate WellFormed(c: Command)
  {
    (c.op == OP_PUT || c.op == OP_DELETE) && |c.key| < U32 && |c.value| < U32
  }

  lemma EncodeParts(o: byte, k: Bytes, key: Bytes, v: Bytes, value: Bytes)
    requires |k| == 4 && |v| == 4
    ensures var b, n := [o] + k + key + v + value, |key|;
            b[0] == o && b[1..5] == k && b[5..5 + n] == key && b[5 + n..9 + n] == v && b[9 + n..] == value
  {
  }

  lemma EncodeSplit(b: Bytes, n: nat)
    requires 9 + n <= |b|
    ensures b == [b[0]] + b[1..5] + b[5..5 + n] + b[5 + n..9 + n] + b[9 + n..]
  {
  }

  lemma DecodesBack(c: Command)
    requires WellFormed(c)
    ensures Decode(Encode(c)) == Some(c)
  {
    Spans();
    Fits(|c.key|, 4);
    Fits(|c.value|, 4);
    EncodeParts(c.op, Put(|c.key|, 4), c.key, Put(|c.value|, 4), c.value);
  }

  lemma WasEncoded(b: Bytes)
    requires Decode(b).Some?
    ensures WellFormed(Decode(b).value) && Encode(Decode(b).value) == b
  {
    Spans();
    var n := Get(b[1..5]);
    Rewrites(b[1..5], 4);
    Rewrites(b[5 + n..9 + n], 4);
    EncodeSplit(b, n);
  }

  /** Decoding succeeds exactly on encodings, and gives back what was encoded. */
  lemma DecodesIff(b: Bytes, c: Command)
    ensures Decode(b) == Some(c) <==> WellFormed(c) && b == Encode(c)
  {
    if Decode(b) == Some(c) {
      WasEncoded(b);
    }
    if WellFormed(c) && b == Encode(c) {
      DecodesBack(c);
    }
  }

  /** One mutation applied to the map. Decoding rejects every other op. */
  function Apply(m: Kv, c: Command): Kv
  {
    if c.op == OP_PUT then m[c.key := c.value] else m - {c.key}
  }

  function ApplyAll(m: Kv, cs: seq<Command>): Kv
  {
    if cs == [] then m else Apply(ApplyAll(m, cs[..|cs| - 1]), cs[|cs| - 1])
  }

  // ---- the session envelope ----

  /** A client identity and a serial around a mutation; client 0 means no session. */
  datatype Envelope = Envelope(client: nat, serial: nat, inner: Bytes)

  function Wrap(e: Envelope): (b: Bytes)
    ensures |b| == 16 + |e.inner|
  {
    Put(e.client, 8) + Put(e.serial, 8) + e.inner
  }

  function Unwrap(b: Bytes): Option<Envelope>
  {
    if |b| < 16 then None else Some(Envelope(Get(b[..8]), Get(b[8..16]), b[16..]))
  }

  lemma WrapParts(c: Bytes, s: Bytes, inner: Bytes)
    requires |c| == 8 && |s| == 8
    ensures var b := c + s + inner; b[..8] == c && b[8..16] == s && b[16..] == inner
  {
  }

  lemma WrapSplit(b: Bytes)
    requires 16 <= |b|
    ensures b == b[..8] + b[8..16] + b[16..]
  {
  }

  lemma UnwrapsIff(b: Bytes, e: Envelope)
    ensures Unwrap(b) == Some(e) <==> e.client < U64 && e.serial < U64 && b == Wrap(e)
  {
    Spans();
    if Unwrap(b) == Some(e) {
      Rewrites(b[..8], 8);
      Rewrites(b[8..16], 8);
      WrapSplit(b);
    }
    if e.client < U64 && e.serial < U64 && b == Wrap(e) {
      Fits(e.client, 8);
      Fits(e.serial, 8);
      WrapParts(Put(e.client, 8), Put(e.serial, 8), e.inner);
    }
  }
}
