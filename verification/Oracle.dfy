/** The fault-injection workload's oracle: what it remembers of one client's writes, and why it never
    accuses a correct run.

    The client writes its own keys, one serial at a time; each write ends acknowledged or unknown. */
module Oracle {
  import opened RaftLog
  import opened ByteCode
  import opened KvCommand
  import opened Session

  /** The last acknowledged write of a key, and every unknown write with a higher serial. */
  datatype KeyState = KeyState(ackedSerial: nat, acked: Bytes, unknownLater: map<nat, Bytes>)

  const UNTOUCHED := KeyState(0, [], map[])

  function NoteAck(st: KeyState, serial: nat, value: Bytes): KeyState
  {
    if serial > st.ackedSerial then
      KeyState(serial, value, map s | s in st.unknownLater && s > serial :: st.unknownLater[s])
    else st
  }

  function NoteUnknown(st: KeyState, serial: nat, value: Bytes): KeyState
  {
    if serial > st.ackedSerial then st.(unknownLater := st.unknownLater[serial := value]) else st
  }

  function LegalValues(st: KeyState): set<Bytes>
  {
    (if st.ackedSerial > 0 then {st.acked} else {}) + set s | s in st.unknownLater :: st.unknownLater[s]
  }

  /** The final read of a key is an accusation: an acknowledged key has vanished, or the value found is
      not a legal one. */
  predicate Accuses(st: KeyState, read: Option<Bytes>)
  {
    if read.None? then st.ackedSerial > 0
    else LegalValues(st) != {} && read.value !in LegalValues(st)
  }

  // ---- what the oracle remembers ----

  /** Write i of a history has serial i + 1. */
  datatype Write = Write(key: Bytes, value: Bytes, acked: bool)

  function Remember(h: seq<Write>, k: Bytes): KeyState
  {
    if h == [] then UNTOUCHED
    else
      var st, w := Remember(h[..|h| - 1], k), h[|h| - 1];
      if w.key != k then st
      else if w.acked then NoteAck(st, |h|, w.value)
      else NoteUnknown(st, |h|, w.value)
  }

  /** The serial of the last acknowledged write of k, or 0. */
  function LastAcked(h: seq<Write>, k: Bytes): (n: nat)
    ensures n <= |h| && (n > 0 ==> h[n - 1].key == k && h[n - 1].acked)
    ensures forall i :: n <= i < |h| && h[i].key == k ==> !h[i].acked
  {
    if h == [] then 0
    else if h[|h| - 1].key == k && h[|h| - 1].acked then |h|
    else LastAcked(h[..|h| - 1], k)
  }

  /** It remembers the last acknowledged write, and exactly the later unknown ones. */
  lemma {:induction false} RemembersExactly(h: seq<Write>, k: Bytes)
    ensures var st, n := Remember(h, k), LastAcked(h, k);
            && st.ackedSerial == n && (n > 0 ==> st.acked == h[n - 1].value)
            && (forall s :: s in st.unknownLater <==> n < s <= |h| && h[s - 1].key == k)
            && (forall s :: s in st.unknownLater ==> st.unknownLater[s] == h[s - 1].value)
  {
    if h != [] {
      RemembersExactly(h[..|h| - 1], k);
    }
  }

  /** Every write of k from the last acknowledged one on is a legal final value. */
  lemma LaterWritesLegal(h: seq<Write>, k: Bytes, s: nat)
    requires 0 < s <= |h| && h[s - 1].key == k && LastAcked(h, k) <= s
    ensures h[s - 1].value in LegalValues(Remember(h, k))
  {
    RemembersExactly(h, k);
    var st := Remember(h, k);
    if s > LastAcked(h, k) {
      assert s in st.unknownLater;
    }
  }

  // ---- the log ----

  /** The bytes replicated for write i. */
  function Bytecode(client: nat, h: seq<Write>, i: nat): Bytes
    requires i < |h|
  {
    Wrap(Envelope(client, i + 1, Encode(Command(OP_PUT, h[i].key, h[i].value))))
  }

  predicate Encodable(client: nat, h: seq<Write>)
  {
    0 < client < U64 && |h| < U64 && forall w :: w in h ==> |w.key| < U32 && |w.value| < U32
  }

  lemma Decodes(client: nat, h: seq<Write>, i: nat)
    requires Encodable(client, h) && i < |h|
    ensures var b, c := Bytecode(client, h, i), Command(OP_PUT, h[i].key, h[i].value);
            Unwrap(b) == Some(Envelope(client, i + 1, Encode(c))) && Decode(Encode(c)) == Some(c)
  {
    var c := Command(OP_PUT, h[i].key, h[i].value);
    assert h[i] in h;
    UnwrapsIff(Bytecode(client, h, i), Envelope(client, i + 1, Encode(c)));
    DecodesBack(c);
  }

  /** A command of this client is one of its writes. */
  ghost predicate IsWrite(client: nat, h: seq<Write>, b: Bytes, i: nat)
  {
    i < |h| && b == Bytecode(client, h, i)
  }

  /** A command by anyone else leaves k alone. */
  predicate Leaves(client: nat, k: Bytes, b: Bytes)
  {
    var e := Unwrap(b);
    e.Some? && e.value.client != client ==>
      var c := Decode(e.value.inner); c.Some? ==> c.value.key != k
  }

  ghost predicate OwnKey(client: nat, h: seq<Write>, k: Bytes, b: Bytes)
  {
    && Leaves(client, k, b)
    && (Unwrap(b).Some? && Unwrap(b).value.client == client ==> exists i :: IsWrite(client, h, b, i))
  }

  /** Write i is delivered somewhere in the log, before any later write of the client: the client waited
      for its answer before it went on. */
  ghost predicate DeliveredAt(client: nat, h: seq<Write>, log: seq<Bytes>, i: nat, p: nat)
  {
    && p < |log| && i < |h| && log[p] == Bytecode(client, h, i)
    && forall q: nat, j: nat :: q < p && IsWrite(client, h, log[q], j) ==> j < i
  }

  /** A log that a correct cluster may end with. */
  ghost predicate Correct(client: nat, h: seq<Write>, k: Bytes, log: seq<Bytes>)
  {
    && (forall b :: b in log ==> OwnKey(client, h, k, b))
    && (forall i :: 0 <= i < |h| && h[i].acked && h[i].key == k ==> exists p: nat :: DeliveredAt(client, h, log, i, p))
  }

  /** The serial of the last write of k that took effect, or 0. */
  function LastEffect(client: nat, k: Bytes, log: seq<Bytes>): nat
  {
    if log == [] then 0
    else
      var m, b := Run(EMPTY, log[..|log| - 1]), log[|log| - 1];
      if TakesEffect(m, b, client) && Decode(Unwrap(b).value.inner).value.key == k then Unwrap(b).value.serial
      else LastEffect(client, k, log[..|log| - 1])
  }

  /** The value of k is that of the last of its writes to take effect. */
  ghost predicate Shows(client: nat, h: seq<Write>, k: Bytes, log: seq<Bytes>)
  {
    var m, s := Run(EMPTY, log), LastEffect(client, k, log);
    && s <= Highest(m, client) <= |h|
    && (if s == 0 then k !in m.data
        else s <= |h| && h[s - 1].key == k && k in m.data && m.data[k] == h[s - 1].value)
  }

  lemma OneWrite(client: nat, h: seq<Write>, k: Bytes, log: seq<Bytes>, i: nat)
    requires Encodable(client, h) && log != [] && Shows(client, h, k, log[..|log| - 1])
    requires IsWrite(client, h, log[|log| - 1], i)
    ensures Shows(client, h, k, log)
  {
    Decodes(client, h, i);
  }

  lemma OneOther(client: nat, h: seq<Write>, k: Bytes, log: seq<Bytes>)
    requires Encodable(client, h) && log != [] && Shows(client, h, k, log[..|log| - 1])
    requires var e := Unwrap(log[|log| - 1]); e.None? || e.value.client != client
    requires Leaves(client, k, log[|log| - 1])
    ensures Shows(client, h, k, log)
  {
  }

  lemma {:induction false} AlwaysShows(client: nat, h: seq<Write>, k: Bytes, log: seq<Bytes>)
    requires Encodable(client, h) && forall b :: b in log ==> OwnKey(client, h, k, b)
    ensures Shows(client, h, k, log)
  {
    if log != [] {
      var b := log[|log| - 1];
      AlwaysShows(client, h, k, log[..|log| - 1]);
      assert OwnKey(client, h, k, b);
      if Unwrap(b).Some? && Unwrap(b).value.client == client {
        var i :| IsWrite(client, h, b, i);
        OneWrite(client, h, k, log, i);
      } else {
        OneOther(client, h, k, log);
      }
    }
  }

  ghost predicate SerialAt(client: nat, h: seq<Write>, log: seq<Bytes>, n: nat, q: nat)
  {
    q < |log| && 0 < n && IsWrite(client, h, log[q], n - 1)
  }

  lemma SerialOf(client: nat, h: seq<Write>, i: nat)
    requires Encodable(client, h) && i < |h|
    ensures Unwrap(Bytecode(client, h, i)).Some? && Unwrap(Bytecode(client, h, i)).value.serial == i + 1
  {
    Decodes(client, h, i);
  }

  /** The client's high-water mark is the serial of a write that was delivered. */
  lemma {:induction false} HighestDelivered(client: nat, h: seq<Write>, k: Bytes, log: seq<Bytes>)
    requires Encodable(client, h) && forall b :: b in log ==> OwnKey(client, h, k, b)
    ensures var n := Highest(Run(EMPTY, log), client); n == 0 || exists q: nat :: SerialAt(client, h, log, n, q)
  {
    if log != [] {
      var init, b := log[..|log| - 1], log[|log| - 1];
      HighestDelivered(client, h, k, init);
      assert OwnKey(client, h, k, b);
      var n, n1 := Highest(Run(EMPTY, init), client), Highest(Run(EMPTY, log), client);
      OneSerial(Run(EMPTY, init), b, client);
      if n1 != n {
        var i :| IsWrite(client, h, b, i);
        SerialOf(client, h, i);
        assert SerialAt(client, h, log, n1, |log| - 1);
      } else if n != 0 {
        var q: nat :| SerialAt(client, h, init, n, q);
        assert SerialAt(client, h, log, n, q);
      }
    }
  }

  /** An acknowledged write takes effect where it is first delivered. */
  lemma AckedTakesEffect(client: nat, h: seq<Write>, k: Bytes, log: seq<Bytes>, i: nat, p: nat)
    requires Encodable(client, h) && DeliveredAt(client, h, log, i, p) && h[i].key == k
    requires forall b :: b in log ==> OwnKey(client, h, k, b)
    ensures LastEffect(client, k, log[..p + 1]) == i + 1
  {
    var init := log[..p];
    assert log[..p + 1][..p] == init;
    HighestDelivered(client, h, k, init);
    var n := Highest(Run(EMPTY, init), client);
    if n != 0 {
      var q: nat :| SerialAt(client, h, init, n, q);
      assert IsWrite(client, h, log[q], n - 1);
    }
    Decodes(client, h, i);
  }

  lemma {:induction false} EffectRises(client: nat, h: seq<Write>, k: Bytes, log: seq<Bytes>, p: nat)
    requires Encodable(client, h) && p <= |log| && forall b :: b in log ==> OwnKey(client, h, k, b)
    ensures LastEffect(client, k, log[..p]) <= LastEffect(client, k, log)
    decreases |log|
  {
    if p < |log| {
      var init := log[..|log| - 1];
      AlwaysShows(client, h, k, init);
      EffectRises(client, h, k, init, p);
      assert init[..p] == log[..p];
    } else {
      assert log[..p] == log;
    }
  }

  function Lookup(m: Kv, k: Bytes): Option<Bytes>
  {
    if k in m then Some(m[k]) else None
  }

  /** The oracle never accuses a correct run: for any log that holds every acknowledged write where its
      client waited for it, any duplicates, and any of the unknown writes, the value that the
      deduplicating state machine ends with is one the oracle allows. */
  lemma NeverAccusesCorrectRun(client: nat, h: seq<Write>, k: Bytes, log: seq<Bytes>)
    requires Encodable(client, h) && Correct(client, h, k, log)
    ensures !Accuses(Remember(h, k), Lookup(Run(EMPTY, log).data, k))
  {
    AlwaysShows(client, h, k, log);
    AckedNotOvertaken(client, h, k, log);
    NoAccusation(h, k, LastEffect(client, k, log), Lookup(Run(EMPTY, log).data, k));
  }

  lemma AckedNotOvertaken(client: nat, h: seq<Write>, k: Bytes, log: seq<Bytes>)
    requires Encodable(client, h) && Correct(client, h, k, log)
    ensures LastAcked(h, k) <= LastEffect(client, k, log)
  {
    var n := LastAcked(h, k);
    if n > 0 {
      assert h[n - 1].acked && h[n - 1].key == k;
      var p: nat :| DeliveredAt(client, h, log, n - 1, p);
      AckedTakesEffect(client, h, k, log, n - 1, p);
      EffectRises(client, h, k, log, p + 1);
    }
  }

  lemma NoAccusation(h: seq<Write>, k: Bytes, s: nat, read: Option<Bytes>)
    requires LastAcked(h, k) <= s <= |h|
    requires if s == 0 then read.None? else h[s - 1].key == k && read == Some(h[s - 1].value)
    ensures !Accuses(Remember(h, k), read)
  {
    RemembersExactly(h, k);
    if s > 0 {
      LaterWritesLegal(h, k, s);
    }
  }

  // ---- exactness ----

  /** A log of the acknowledged writes among the first n, and of the write with serial s. */
  function Witness(client: nat, h: seq<Write>, s: nat, n: nat): seq<Bytes>
    requires n <= |h|
  {
    if n == 0 then []
    else Witness(client, h, s, n - 1) + if h[n - 1].acked || n == s then [Bytecode(client, h, n - 1)] else []
  }

  /** The highest serial on k in that log. */
  function Top(h: seq<Write>, k: Bytes, s: nat, n: nat): nat
    requires n <= |h|
  {
    if n == 0 then 0
    else if h[n - 1].key == k && (h[n - 1].acked || n == s) then n
    else Top(h, k, s, n - 1)
  }

  lemma {:induction false} TopIs(h: seq<Write>, k: Bytes, s: nat, n: nat)
    requires s <= n <= |h| && 0 < s && h[s - 1].key == k && LastAcked(h, k) <= s
    ensures Top(h, k, s, n) == s
  {
    if n > s {
      TopIs(h, k, s, n - 1);
    }
  }

  /** What delivering that log does. */
  lemma {:induction false} WitnessShows(client: nat, h: seq<Write>, k: Bytes, s: nat, n: nat)
    requires Encodable(client, h) && n <= |h|
    ensures var log := Witness(client, h, s, n);
            Highest(Run(EMPTY, log), client) <= n && LastEffect(client, k, log) == Top(h, k, s, n)
  {
    if n > 0 {
      WitnessShows(client, h, k, s, n - 1);
      var init, log := Witness(client, h, s, n - 1), Witness(client, h, s, n);
      if h[n - 1].acked || n == s {
        EffectOf(client, h, k, init, n - 1);
      } else {
        assert init + [] == init;
      }
    }
  }

  /** A write whose serial is above the high-water mark takes effect. */
  lemma EffectOf(client: nat, h: seq<Write>, k: Bytes, init: seq<Bytes>, i: nat)
    requires Encodable(client, h) && i < |h| && Highest(Run(EMPTY, init), client) <= i
    ensures var log := init + [Bytecode(client, h, i)];
            && Highest(Run(EMPTY, log), client) == i + 1
            && LastEffect(client, k, log) == if h[i].key == k then i + 1 else LastEffect(client, k, init)
  {
    var log := init + [Bytecode(client, h, i)];
    assert log[..|log| - 1] == init;
    Decodes(client, h, i);
  }

  lemma {:induction false} WitnessOwn(client: nat, h: seq<Write>, k: Bytes, s: nat, n: nat)
    requires Encodable(client, h) && n <= |h|
    ensures forall b :: b in Witness(client, h, s, n) ==> OwnKey(client, h, k, b)
  {
    if n > 0 {
      WitnessOwn(client, h, k, s, n - 1);
      Decodes(client, h, n - 1);
      assert IsWrite(client, h, Bytecode(client, h, n - 1), n - 1);
    }
  }

  /** Every command in the log of the first n writes is one of those. */
  lemma {:induction false} WitnessBelow(client: nat, h: seq<Write>, s: nat, n: nat, q: nat, j: nat)
    requires Encodable(client, h) && n <= |h| && q < |Witness(client, h, s, n)|
    requires IsWrite(client, h, Witness(client, h, s, n)[q], j)
    ensures j < n
  {
    var init := Witness(client, h, s, n - 1);
    if q < |init| {
      WitnessBelow(client, h, s, n - 1, q, j);
    } else {
      SerialOf(client, h, n - 1);
      SerialOf(client, h, j);
    }
  }

  lemma {:induction false} WitnessGrows(client: nat, h: seq<Write>, s: nat, m: nat, n: nat)
    requires m <= n <= |h|
    ensures Witness(client, h, s, m) <= Witness(client, h, s, n)
    decreases n
  {
    if m < n { WitnessGrows(client, h, s, m, n - 1); }
  }

  lemma WitnessDelivers(client: nat, h: seq<Write>, s: nat, i: nat)
    requires Encodable(client, h) && i < |h| && h[i].acked
    ensures DeliveredAt(client, h, Witness(client, h, s, |h|), i, |Witness(client, h, s, i)|)
  {
    var p, log := |Witness(client, h, s, i)|, Witness(client, h, s, |h|);
    WitnessGrows(client, h, s, i + 1, |h|);
    WitnessGrows(client, h, s, i, |h|);
    assert Witness(client, h, s, i + 1)[p] == Bytecode(client, h, i);
    forall q: nat, j: nat | q < p && IsWrite(client, h, log[q], j)
      ensures j < i
    {
      assert log[q] == Witness(client, h, s, i)[q];
      WitnessBelow(client, h, s, i, q, j);
    }
  }

  lemma LegalSerial(h: seq<Write>, k: Bytes, value: Bytes) returns (s: nat)
    requires value in LegalValues(Remember(h, k))
    ensures 0 < s <= |h| && LastAcked(h, k) <= s && h[s - 1].key == k && h[s - 1].value == value
  {
    RemembersExactly(h, k);
    var st := Remember(h, k);
    if st.ackedSerial > 0 && value == st.acked {
      s := st.ackedSerial;
    } else {
      s :| s in st.unknownLater && st.unknownLater[s] == value;
    }
  }

  /** The oracle allows nothing more than it must: every value it calls legal is the outcome of some
      correct run. */
  lemma LegalIsPossible(client: nat, h: seq<Write>, k: Bytes, value: Bytes) returns (log: seq<Bytes>)
    requires Encodable(client, h) && value in LegalValues(Remember(h, k))
    ensures Correct(client, h, k, log) && Lookup(Run(EMPTY, log).data, k) == Some(value)
  {
    var s := LegalSerial(h, k, value);
    log := Witness(client, h, s, |h|);
    WitnessOwn(client, h, k, s, |h|);
    forall i | 0 <= i < |h| && h[i].acked && h[i].key == k
      ensures exists p: nat :: DeliveredAt(client, h, log, i, p)
    {
      WitnessDelivers(client, h, s, i);
    }
    AlwaysShows(client, h, k, log);
    WitnessShows(client, h, k, s, |h|);
    TopIs(h, k, s, |h|);
  }

  // ---- the workload's bookkeeping as an object ----

  class Workload {
    var state: map<Bytes, KeyState>

    constructor ()
      ensures state == map[]
    {
      state := map[];
    }

    function StateFor(key: Bytes): KeyState
      reads this
    {
      if key in state then state[key] else UNTOUCHED
    }

    method Ack(key: Bytes, serial: nat, value: Bytes)
      modifies this
      ensures state == old(state)[key := NoteAck(old(StateFor(key)), serial, value)]
    {
      var st := StateFor(key);
      if serial > st.ackedSerial {
        var left, todo := st.unknownLater, st.unknownLater.Keys;
        while todo != {}
          invariant todo <= st.unknownLater.Keys && state == old(state)
          invariant left == map s | s in st.unknownLater && (s > serial || s in todo) :: st.unknownLater[s]
          decreases |todo|
        {
          var s :| s in todo;
          if s <= serial { left := left - {s}; }
          todo := todo - {s};
        }
        assert left == map s | s in st.unknownLater && s > serial :: st.unknownLater[s];
        st := KeyState(serial, value, left);
      }
      state := state[key := st];
    }

    /** The test that Verify makes of the value read back. */
    method Check(key: Bytes, read: Option<Bytes>) returns (accused: bool)
      ensures accused == Accuses(StateFor(key), read)
    {
      var st := StateFor(key);
      if read.None? { return st.ackedSerial > 0; }
      var legal := UnknownValues(st.unknownLater);
      if st.ackedSerial > 0 { legal := {st.acked} + legal; }
      assert legal == LegalValues(st);
      accused := legal != {} && read.value !in legal;
    }

    method UnknownValues(later: map<nat, Bytes>) returns (values: set<Bytes>)
      ensures values == set s | s in later :: later[s]
    {
      values := {};
      var todo := later.Keys;
      while todo != {}
        invariant todo <= later.Keys && values == set s | s in later && s !in todo :: later[s]
        decreases |todo|
      {
        var s :| s in todo;
        values, todo := values + {later[s]}, todo - {s};
      }
    }

    method Unknown(key: Bytes, serial: nat, value: Bytes)
      modifies this
      ensures state == old(state)[key := NoteUnknown(old(StateFor(key)), serial, value)]
    {
      var st := StateFor(key);
      if serial > st.ackedSerial {
        st := st.(unknownLater := st.unknownLater[serial := value]);
      }
      state := state[key := st];
    }
  }
}
