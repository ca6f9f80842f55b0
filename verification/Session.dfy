/** The replicated key-value state machine and its session table.

    A session command takes effect at most once, at its first delivery; the serials that take effect for
    one client are strictly increasing; and any number of further copies, anywhere later in the log,
    change neither the map nor the table. */
module Session {
  import opened RaftLog
  import opened KvCommand

  /** sessions[c] is the highest serial applied for client c. */
  datatype Machine = Machine(data: Kv, sessions: map<nat, nat>)

  const EMPTY := Machine(map[], map[])

  function Highest(m: Machine, client: nat): nat
  {
    if client in m.sessions then m.sessions[client] else 0
  }

  /** Already applied: a session command at or below its client's high-water mark. */
  predicate Stale(m: Machine, e: Envelope)
  {
    e.client != 0 && e.serial <= Highest(m, e.client)
  }

  function ApplyEnvelope(m: Machine, e: Envelope): Machine
  {
    if Stale(m, e) then m
    else
      match Decode(e.inner)
      case None => m
      case Some(c) => Machine(KvCommand.Apply(m.data, c), if e.client == 0 then m.sessions else m.sessions[e.client := e.serial])
  }

  /** One committed command; bytes that do not decode are skipped by every replica alike. */
  function Deliver(m: Machine, b: Bytes): Machine
  {
    match Unwrap(b)
    case None => m
    case Some(e) => ApplyEnvelope(m, e)
  }

  function Run(m: Machine, log: seq<Bytes>): Machine
  {
    if log == [] then m else Deliver(Run(m, log[..|log| - 1]), log[|log| - 1])
  }

  // ---- deduplication ----

  /** A command that belongs to a session. */
  predicate InSession(b: Bytes)
  {
    Unwrap(b).Some? && Unwrap(b).value.client != 0
  }

  lemma HighestRises(m: Machine, b: Bytes, client: nat)
    ensures Highest(m, client) <= Highest(Deliver(m, b), client)
  {
  }

  /** A session command that does nothing any more: it is stale, or it never decodes. */
  predicate Done(m: Machine, b: Bytes)
  {
    Unwrap(b).Some? && (Stale(m, Unwrap(b).value) || Decode(Unwrap(b).value.inner).None?)
  }

  lemma {:induction false} DoneOnceDelivered(m: Machine, b: Bytes, log: seq<Bytes>)
    requires InSession(b) && b in log
    ensures Done(Run(m, log), b)
  {
    var init, last := log[..|log| - 1], log[|log| - 1];
    if b in init {
      DoneOnceDelivered(m, b, init);
      HighestRises(Run(m, init), last, Unwrap(b).value.client);
    } else {
      assert last == b;
    }
  }

  /** log without the copies of b after its first occurrence. */
  function Strip(log: seq<Bytes>, b: Bytes): (r: seq<Bytes>)
    ensures b in r <==> b in log
  {
    if log == [] then []
    else
      var init, last := Strip(log[..|log| - 1], b), log[|log| - 1];
      if last == b && b in init then init else init + [last]
  }

  /** Exactly once: however many copies of a session command a log holds, wherever they stand after the
      first, the machine ends as if it held the first alone. */
  lemma {:induction false} CopiesChangeNothing(m: Machine, log: seq<Bytes>, b: Bytes)
    requires InSession(b)
    ensures Run(m, log) == Run(m, Strip(log, b))
  {
    if log != [] {
      var init, last := log[..|log| - 1], log[|log| - 1];
      CopiesChangeNothing(m, init, b);
      if last == b && b in Strip(init, b) {
        DoneOnceDelivered(m, b, init);
      } else {
        assert (Strip(init, b) + [last])[..|Strip(init, b)|] == Strip(init, b);
      }
    }
  }

  // ---- serials ----

  /** The serials of a client that took effect, in order. */
  function Applied(m: Machine, log: seq<Bytes>, client: nat): seq<nat>
  {
    if log == [] then []
    else
      var init, last := log[..|log| - 1], log[|log| - 1];
      Applied(m, init, client) + if TakesEffect(Run(m, init), last, client) then [Unwrap(last).value.serial] else []
  }

  predicate TakesEffect(m: Machine, b: Bytes, client: nat)
  {
    Unwrap(b).Some? && Unwrap(b).value.client == client && !Stale(m, Unwrap(b).value) && Decode(Unwrap(b).value.inner).Some?
  }

  predicate Rising(s: seq<nat>)
  {
    forall i, j :: 0 <= i < j < |s| ==> s[i] < s[j]
  }

  lemma OneSerial(m: Machine, b: Bytes, client: nat)
    requires client != 0
    ensures TakesEffect(m, b, client) ==>
              Highest(m, client) < Unwrap(b).value.serial == Highest(Deliver(m, b), client)
    ensures !TakesEffect(m, b, client) ==> Highest(Deliver(m, b), client) == Highest(m, client)
  {
  }

  lemma RisesOn(s: seq<nat>, x: nat, floor: nat)
    requires Rising(s) && (forall i :: 0 <= i < |s| ==> floor < s[i])
    requires floor < x && (s == [] || s[|s| - 1] < x)
    ensures Rising(s + [x]) && (forall i :: 0 <= i < |s + [x]| ==> floor < (s + [x])[i])
  {
  }

  /** For each client the serials that take effect are strictly increasing, and the table holds the last. */
  lemma {:induction false} SerialsRise(m: Machine, log: seq<Bytes>, client: nat)
    requires client != 0
    ensures var s := Applied(m, log, client);
            && Rising(s) && (forall i :: 0 <= i < |s| ==> Highest(m, client) < s[i])
            && Highest(Run(m, log), client) == if s == [] then Highest(m, client) else s[|s| - 1]
  {
    if log != [] {
      var init, last := log[..|log| - 1], log[|log| - 1];
      SerialsRise(m, init, client);
      OneSerial(Run(m, init), last, client);
      if TakesEffect(Run(m, init), last, client) {
        RisesOn(Applied(m, init, client), Unwrap(last).value.serial, Highest(m, client));
      }
    }
  }

  // ---- the machine as an object ----

  class StateMachine {
    var data: Kv
    var sessions: map<nat, nat>

    ghost function View(): Machine
      reads this
    {
      Machine(data, sessions)
    }

    constructor ()
      ensures View() == EMPTY
    {
      data, sessions := map[], map[];
    }

    method ApplyCommand(b: Bytes)
      modifies this
      ensures View() == Deliver(old(View()), b)
    {
      var envelope := Unwrap(b);
      if envelope.None? { return; }
      var e := envelope.value;
      var highest := if e.client in sessions then sessions[e.client] else 0;
      if e.client != 0 && e.serial <= highest { return; }
      var decoded := Decode(e.inner);
      if decoded.None? { return; }
      var c := decoded.value;
      if c.op == OP_PUT {
        data := data[c.key := c.value];
      } else {
        data := data - {c.key};
      }
      if e.client != 0 {
        sessions := sessions[e.client := e.serial];
      }
    }

    /** The image carries the session table along with the data. */
    method Snapshot() returns (image: Machine)
      ensures image == View()
    {
      image := Machine(data, sessions);
    }

    method Restore(image: Machine)
      modifies this
      ensures View() == image
    {
      data, sessions := image.data, image.sessions;
    }
  }
}
