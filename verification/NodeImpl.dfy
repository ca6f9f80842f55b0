/** The event loop's own loops: draining the committed entries and the read outcomes, and releasing the
    reads whose index has been applied, on an apply cursor, a state machine and waiters updated in place. */
module NodeImpl {
  import Spec = Cluster
  import opened RaftLog
  import opened RaftCore
  import opened Cluster

  class Loop {
    const id: Id

    var up: bool
    var core: State
    var applied: nat
    var sm: Log
    var waiters: map<nat, Waiter>
    var readWaiters: map<nat, nat>
    var appliedWaiters: seq<AppliedWaiter>
    /** What clients have been told since the last drain began. */
    var out: seq<Output>

    ghost function View(): Work
      reads this
    {
      Work(Node(up, core, applied, sm, waiters, readWaiters, appliedWaiters), out)
    }

    /** The process starts from its disk: the state machine is reset to the snapshot's image. */
    constructor (id: Id, term: nat, votedFor: Id, snap: Snapshot, entries: Log)
      ensures View() == Work(Boot(term, votedFor, snap, entries), []) && this.id == id
    {
      this.id := id;
      up, core := true, NewCore(term, votedFor, snap, entries);
      applied, sm := snap.lastIndex, snap.image;
      waiters, readWaiters, appliedWaiters, out := map[], map[], [], [];
    }

    method FireAppliedWaiters()
      modifies `appliedWaiters, `out
      ensures View() == Spec.FireAppliedWaiters(id, old(View()))
    {
      if |appliedWaiters| == 0 { return; }
      var remaining, i := [], 0;
      while i < |appliedWaiters|
        invariant 0 <= i <= |appliedWaiters| && appliedWaiters == old(appliedWaiters)
        invariant remaining == StillWaiting(appliedWaiters[..i], applied)
        invariant out == old(out) + Released(id, appliedWaiters[..i], applied)
      {
        var w := appliedWaiters[i];
        assert appliedWaiters[..i + 1][..i] == appliedWaiters[..i];
        if applied >= w.index {
          out := out + [ReadOk(w.client, id, w.index)];
        } else {
          remaining := remaining + [w];
        }
        i := i + 1;
      }
      assert appliedWaiters[..i] == appliedWaiters;
      appliedWaiters := remaining;
    }

    method ApplyEntry(e: Entry)
      modifies `sm, `applied, `waiters, `appliedWaiters, `out
      ensures View() == Spec.ApplyEntry(id, old(View()), e)
    {
      sm, applied, out := sm + [e], e.index, out + [Applied(id, e)];
      FireAppliedWaiters();
      if e.index in waiters {
        var w := waiters[e.index];
        waiters := waiters - {e.index};
        if w.term == e.term {
          out := out + [ProposeOk(w.client, w.command, e)];
        } else {
          out := out + [ProposeLost(w.client, e.index, w.term)];
        }
      }
    }

    method ResolveRead(r: ReadOutcome)
      modifies `readWaiters, `appliedWaiters, `out
      ensures View() == Spec.ResolveRead(id, old(View()), r)
    {
      if r.id !in readWaiters { return; }
      var client := readWaiters[r.id];
      readWaiters := readWaiters - {r.id};
      if !r.confirmed {
        out := out + [ReadLost(client)];
      } else if applied >= r.index {
        out := out + [ReadOk(client, id, r.index)];
      } else {
        appliedWaiters := appliedWaiters + [AppliedWaiter(r.index, client)];
      }
    }

    method ApplyCommitted(es: Log)
      modifies `sm, `applied, `waiters, `appliedWaiters, `out
      ensures View() == ApplyAll(id, old(View()), es)
    {
      for i := 0 to |es|
        invariant View() == ApplyAll(id, old(View()), es[..i])
      {
        ApplyEntry(es[i]);
        assert es[..i + 1][..i] == es[..i];
      }
      assert es[..|es|] == es;
    }

    method ResolveReads(rs: seq<ReadOutcome>)
      modifies `readWaiters, `appliedWaiters, `out
      ensures View() == ResolveAll(id, old(View()), rs)
    {
      for i := 0 to |rs|
        invariant View() == ResolveAll(id, old(View()), rs[..i])
      {
        ResolveRead(rs[i]);
        assert rs[..i + 1][..i] == rs[..i];
      }
      assert rs[..|rs|] == rs;
    }
  }
}
