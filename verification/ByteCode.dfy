/** Little-endian integers in byte strings, as every file format here uses them. */
module ByteCode {
  import opened RaftLog

  /** 256 to the k. */
  function Span(k: nat): (r: nat)
    ensures r > 0
  {
    if k == 0 then 1 else 256 * Span(k - 1)
  }

  /** The low k bytes of n, least significant first; higher bytes are dropped. */
  function Put(n: nat, k: nat): (b: Bytes)
    ensures |b| == k
  {
    if k == 0 then [] else [(n % 256) as byte] + Put(n / 256, k - 1)
  }

  /** The number that a byte string spells. */
  function Get(b: Bytes): (n: nat)
    ensures n < Span(|b|)
  {
    if b == [] then 0 else b[0] as nat + 256 * Get(b[1..])
  }

  /** Reading back what was put gives the number modulo the width. */
  lemma {:induction false} GetPut(n: nat, k: nat)
    ensures Get(Put(n, k)) == n % Span(k)
  {
    if k > 0 {
      GetPut(n / 256, k - 1);
      var b := Put(n, k);
      assert b[1..] == Put(n / 256, k - 1);
      ModSplit(n, Span(k - 1));
    }
  }

  lemma ModSplit(n: nat, s: nat)
    requires s > 0
    ensures n % (256 * s) == n % 256 + 256 * (n / 256 % s)
  {
    var q, r := n / 256, n % 256;
    var a, c := q / s, q % s;
    assert n == 256 * q + r && q == a * s + c;
    assert n == a * (256 * s) + (256 * c + r);
    assert 256 * c + r < 256 * s;
    Remainder(n, 256 * s, a, 256 * c + r);
  }

  lemma Remainder(n: nat, d: nat, q: nat, r: nat)
    requires d > 0 && n == q * d + r && r < d
    ensures n % d == r
  {
    var k := n / d - q;
    assert n == d * (n / d) + n % d;
    assert d * k == r - n % d;
    Scaled(d, k);
  }

  lemma Scaled(d: int, k: int)
    requires d > 0
    ensures (k >= 1 ==> d * k >= d) && (k <= -1 ==> d * k <= -d)
  {
  }

  /** Writing back what was read gives the bytes. */
  lemma {:induction false} PutGet(b: Bytes)
    ensures Put(Get(b), |b|) == b
  {
    if b != [] {
      PutGet(b[1..]);
      assert Get(b) % 256 == b[0] as nat && Get(b) / 256 == Get(b[1..]);
    }
  }

  /** The same, for a field of known width. */
  lemma Rewrites(b: Bytes, k: nat)
    requires |b| == k
    ensures Put(Get(b), k) == b && Get(b) < Span(k)
  {
    PutGet(b);
  }

  const U32 := 0x1_0000_0000
  const U64 := 0x1_0000_0000_0000_0000

  lemma Spans()
    ensures Span(4) == U32 && Span(8) == U64
  {
  }

  /** A field that fits its width survives. */
  lemma Fits(n: nat, k: nat)
    requires n < Span(k)
    ensures Get(Put(n, k)) == n
  {
    GetPut(n, k);
  }
}
