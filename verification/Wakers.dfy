/** Bodies that wait are woken: a waker is stored as long as there is nothing to read, and no longer. */
module Wakers {
  import opened Octets
  import opened Records
  import opened Framing
  import opened Requests
  import opened Client
  import opened Ownership
  import opened Delivery
  import opened Senders
  import opened Runs

  /** Nothing is buffered for the request at x, it has not ended, and it has not been aborted. */
  predicate NothingYet(slots: Slab, x: nat)
  {
    Occupied(slots, x) && slots[x].value.buf == [] && !slots[x].value.ended && !slots[x].value.aborted
  }

  predicate NotPolled(steps: seq<Step>, i: nat)
  {
    forall k :: 0 <= k < |steps| ==> !(steps[k].Poll? && steps[k].i == i)
  }

  /** A body that has found nothing in slot x, or has been dropped since. */
  predicate Waits(w: World, i: nat, x: nat)
  {
    && Core(w) && i < |w.insts| && w.insts[i].rid == x && w.insts[i].waiting
    && (Live(w.insts[i]) || w.insts[i].phase == Dropped)
  }

  lemma WaitsStart(w: World, s: Step, i: nat, x: nat)
    requires Waits(w, i, x) && s.Start? && Enabled(w, s)
    ensures Waits(Take(w, s), i, x)
  {
    CoreStart(w, s);
    EventFrame(w, s.ev);
    SameInst(w, s.ev, i);
    InsertChanges(Prepared(w, s.ev), s.x, s.order, s.o);
  }

  lemma WaitsPoll(w: World, s: Step, i: nat, x: nat)
    requires Waits(w, i, x) && s.Poll? && s.i != i && Enabled(w, s)
    ensures Waits(Take(w, s), i, x)
  {
    CoreStep(w, s);
    SameInst(w, s.ev, i);
    PollTaken(w, s);
  }

  lemma WaitsStep(w: World, s: Step, i: nat, x: nat)
    requires Waits(w, i, x) && Enabled(w, s) && !(s.Poll? && s.i == i)
    ensures Waits(Take(w, s), i, x)
  {
    match s {
      case Start(_, _, _, _) => WaitsStart(w, s, i, x);
      case Poll(_, _, _) => WaitsPoll(w, s, i, x);
      case _ => WaitsElse(w, s, i, x);
    }
  }

  lemma WaitsElse(w: World, s: Step, i: nat, x: nat)
    requires Waits(w, i, x) && Enabled(w, s) && !s.Start? && !s.Poll?
    ensures Waits(Take(w, s), i, x)
  {
    CoreStep(w, s);
    SameWaiter(w, s, i);
  }

  lemma SameWaiter(w: World, s: Step, i: nat)
    requires Shape(w) && Enabled(w, s) && !s.Start? && !s.Poll? && i < |w.insts|
    ensures i < |Take(w, s).insts|
    ensures var a, b := w.insts[i], Take(w, s).insts[i];
            b.rid == a.rid && b.waiting == a.waiting && (b.phase == a.phase || Live(b) || b.phase == Dropped)
  {
    match s {
      case SendChunk(j, _, _) => SendKeeps(w, s, j);
      case SendEnd(j, _) => SendKeeps(w, s, j);
      case Peer(j, body) => PeerKeeps(w, j, body);
      case _ =>
    }
  }

  lemma {:induction false} WaitsOn(w: World, steps: seq<Step>, i: nat, x: nat)
    requires Shape(w) && Waits(w, i, x) && Exec(w, steps).Some? && NotPolled(steps, i)
    ensures Waits(Exec(w, steps).value, i, x)
    decreases |steps|
  {
    if steps != [] {
      var n := |steps| - 1;
      var v := ExecBack(w, steps);
      WaitsOn(w, steps[..n], i, x);
      WaitsStep(v, steps[n], i, x);
    }
  }

  /** A poll that finds nothing leaves the body waiting, with its waker stored. */
  lemma FoundNothing(w: World, s: Step)
    requires Core(w) && s.Poll? && Enabled(w, s) && NothingYet(Happen(w, s.ev).slots, w.insts[s.i].rid)
    ensures Waits(Take(w, s), s.i, w.insts[s.i].rid)
    ensures var r, x := Take(w, s), w.insts[s.i].rid; NothingYet(r.slots, x) && r.slots[x].value.waker
  {
    CoreStep(w, s);
    SameInst(w, s.ev, s.i);
    PollTaken(w, s);
  }

  lemma WaiterHasWaker(w: World, i: nat, x: nat)
    requires Waits(w, i, x)
    ensures if Holds(w, i) then w.slots[x].value.waker <==> NothingYet(w.slots, x) else w.insts[i].phase == Dropped
  {
    assert InstOk(w, i) && SlotOk(w, w.insts[i].rid);
  }

  /**
   * No wake-up is lost, and none comes early: from a poll that finds nothing until the next poll of the same body,
   * whatever else happens, the waker is stored exactly as long as nothing has been queued for the request, it has not
   * ended, and it has not been aborted. Its slot is given up in between only if the body has been dropped.
   */
  lemma WakerStays(w: World, s: Step, steps: seq<Step>)
    requires Reachable(w) && Shape(w) && s.Poll? && Enabled(w, s)
    requires NothingYet(Happen(w, s.ev).slots, w.insts[s.i].rid)
    requires Exec(Take(w, s), steps).Some? && NotPolled(steps, s.i)
    ensures var r, x := Exec(Take(w, s), steps).value, w.insts[s.i].rid;
            && s.i < |r.insts| && r.insts[s.i].rid == x
            && if Holds(r, s.i) then r.slots[x].value.waker <==> NothingYet(r.slots, x)
               else r.insts[s.i].phase == Dropped
  {
    ReachableKeeps(w);
    FoundNothing(w, s);
    WaitsOn(Take(w, s), steps, s.i, w.insts[s.i].rid);
    var r := Exec(Take(w, s), steps).value;
    WaiterHasWaker(r, s.i, w.insts[s.i].rid);
  }

  /**
   * In every reachable state a waker is stored exactly for a body that waits with nothing to read; and a living body
   * that waits has its waker until something is queued for it or its request ends.
   */
  lemma WakerMeansWaiting(w: World, i: nat)
    requires Reachable(w) && Shape(w) && i < |w.insts|
    ensures Live(w.insts[i]) ==> Holds(w, i)
    ensures Holds(w, i) ==>
              var inst, q := w.insts[i], w.slots[w.insts[i].rid].value;
              && (q.waker <==> inst.waiting && NothingYet(w.slots, inst.rid))
              && (Live(inst) && inst.waiting ==> q.waker || q.buf != [] || q.ended)
  {
    ReachableKeeps(w);
    assert InstOk(w, i) && SlotOk(w, w.insts[i].rid);
  }
}
