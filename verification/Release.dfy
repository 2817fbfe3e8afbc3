/** How the slots of ended requests are given back. */
module Release {
  import opened Octets
  import opened Records
  import opened Framing
  import opened Requests
  import opened Client
  import opened Ownership
  import opened Delivery
  import opened Senders
  import opened Runs

  // ---------- bodies of ended requests ----------

  /** Records on their way leave a request alone that has ended. */
  lemma EndedDeliver(w: World, i: nat)
    requires Flow(w) && !w.dead && w.inflight != [] && i < |w.insts| && Holds(w, i)
    requires w.slots[w.insts[i].rid].value.ended
    ensures var r := Deliver(w);
            && i < |r.insts| && Holds(r, i) && r.insts[i] == w.insts[i]
            && r.slots[w.insts[i].rid] == w.slots[w.insts[i].rid]
  {
    assert QueueOk(w, 0);
    DeliverOwn(w);
  }

  lemma {:induction false} EndedDeliverMany(w: World, k: nat, i: nat)
    requires Flow(w) && !w.dead && k <= |w.inflight| && i < |w.insts| && Holds(w, i)
    requires w.slots[w.insts[i].rid].value.ended
    ensures var r := DeliverMany(w, k);
            && i < |r.insts| && Holds(r, i) && r.insts[i] == w.insts[i]
            && r.slots[w.insts[i].rid] == w.slots[w.insts[i].rid]
    decreases k
  {
    if k > 0 {
      EndedDeliver(w, i);
      FlowDeliver(w);
      EndedDeliverMany(Deliver(w), k - 1, i);
    }
  }

  /** A body in the caller's hands, whose request has ended. */
  predicate Finishing(w: World, i: nat, buf: seq<bytes>, yielded: bytes)
    requires Shape(w)
  {
    && i < |w.insts| && w.insts[i].phase == Returned && w.insts[i].sending == Ended && w.insts[i].yielded == yielded
    && Holds(w, i) && w.slots[w.insts[i].rid].value.ended && w.slots[w.insts[i].rid].value.buf == buf
  }

  lemma FinishingHappen(w: World, ev: Event, i: nat, buf: seq<bytes>, yielded: bytes)
    requires Flow(w) && Possible(w, ev) && Finishing(w, i, buf, yielded)
    ensures Finishing(Happen(w, ev), i, buf, yielded)
  {
    if ev.Got? {
      EndedDeliverMany(w, ev.k, i);
    }
  }

  lemma FinishingStart(w: World, s: Step, i: nat, buf: seq<bytes>, yielded: bytes)
    requires Flow(w) && s.Start? && Enabled(w, s) && Finishing(w, i, buf, yielded)
    ensures Finishing(Take(w, s), i, buf, yielded)
  {
    FinishingHappen(w, s.ev, i, buf, yielded);
    EventFrame(w, s.ev);
    assert Finishing(Prepared(w, s.ev), i, buf, yielded);
    FinishingInsert(Prepared(w, s.ev), s.x, s.order, s.o, i, buf, yielded);
  }

  lemma FinishingInsert(w: World, x: nat, order: Order, o: Outcome, i: nat, buf: seq<bytes>, yielded: bytes)
    requires Shape(w) && w.pending > 0 && Vacant(w.slots, x) && x < w.max && Finishing(w, i, buf, yielded)
    ensures Finishing(Insert(w, x, order, o), i, buf, yielded)
  {}

  lemma FinishingOthersPoll(w: World, s: Step, i: nat, buf: seq<bytes>, yielded: bytes)
    requires Flow(w) && s.Poll? && s.i != i && Enabled(w, s) && Finishing(w, i, buf, yielded)
    ensures Finishing(Take(w, s), i, buf, yielded)
  {
    var h := Happen(w, s.ev);
    FinishingHappen(w, s.ev, i, buf, yielded);
    CoreHappen(w, s.ev);
    SameInst(w, s.ev, s.i);
    assert InstOk(h, s.i);
    PollOwn(h, s.i, s.complete);
  }

  /** Whatever else happens, the body of an ended request keeps its place. */
  lemma FinishingStep(w: World, s: Step, i: nat, buf: seq<bytes>, yielded: bytes)
    requires Flow(w) && Enabled(w, s) && Finishing(w, i, buf, yielded)
    requires !(s.Poll? && s.i == i) && !(s.Drop? && s.i == i)
    ensures Finishing(Take(w, s), i, buf, yielded)
  {
    match s {
      case Acquire =>
      case GiveUp => FinishingHappen(w, Lost, i, buf, yielded);
      case Start(_, _, _, _) => FinishingStart(w, s, i, buf, yielded);
      case SendChunk(j, _, _) => SendKeeps(w, s, j);
      case SendEnd(j, _) => SendKeeps(w, s, j);
      case Peer(j, body) => PeerKeeps(w, j, body);
      case Poll(_, _, _) => FinishingOthersPoll(w, s, i, buf, yielded);
      case Handover(j, head) => FinishingHandover(w, j, head, i, buf, yielded);
      case Drop(j, _) => FinishingDrop(w, s, j, i, buf, yielded);
    }
  }

  lemma FinishingHandover(w: World, j: nat, head: nat, i: nat, buf: seq<bytes>, yielded: bytes)
    requires Flow(w) && Enabled(w, Step.Handover(j, head)) && Finishing(w, i, buf, yielded)
    ensures Finishing(Take(w, Step.Handover(j, head)), i, buf, yielded)
  {
    assert InstOk(w, j);
    HandoverOwn(w, j, head);
  }

  lemma FinishingDrop(w: World, s: Step, j: nat, i: nat, buf: seq<bytes>, yielded: bytes)
    requires Flow(w) && s.Drop? && s.i == j && j != i && Enabled(w, s) && Finishing(w, i, buf, yielded)
    ensures Finishing(Take(w, s), i, buf, yielded)
  {
    assert InstOk(w, j);
  }

  /** Polling it gives out the front buffer; with the last one the slot is free and the body done. */
  lemma FinishingPoll(w: World, s: Step, i: nat, buf: seq<bytes>, yielded: bytes)
    requires Flow(w) && s.Poll? && s.i == i && Enabled(w, s) && Finishing(w, i, buf, yielded)
    ensures var r := Take(w, s);
            if |buf| <= 1 then
              i < |r.insts| && r.insts[i].phase == Done && r.insts[i].yielded == yielded + Flatten(buf)
            else Finishing(r, i, buf[1..], yielded + buf[0])
  {
    var h := Happen(w, s.ev);
    FinishingHappen(w, s.ev, i, buf, yielded);
    CoreHappen(w, s.ev);
    assert SlotOk(h, h.insts[i].rid);
    PollFront(h, i, s.complete, buf, yielded);
  }

  lemma PollFront(w: World, i: nat, complete: bool, buf: seq<bytes>, yielded: bytes)
    requires Shape(w) && Finishing(w, i, buf, yielded) && NoEmpty(buf)
    ensures var r := PollOne(w, i, complete);
            if |buf| <= 1 then r.insts[i].phase == Done && r.insts[i].yielded == yielded + Flatten(buf)
            else Finishing(r, i, buf[1..], yielded + buf[0])
  {
    if buf != [] {
      assert Flatten(buf) == buf[0] + Flatten(buf[1..]);
      if |buf| == 1 {
        assert buf[1..] == [];
      } else {
        assert Flatten(buf[1..]) == buf[1] + Flatten(buf[1..][1..]);
      }
    }
  }

  /** A body that is done stays so and yields nothing more. */
  lemma DoneStays(w: World, s: Step, i: nat)
    requires Flow(w) && Enabled(w, s) && i < |w.insts| && w.insts[i].phase == Done
    ensures i < |Take(w, s).insts|
    ensures Take(w, s).insts[i].phase == Done && Take(w, s).insts[i].yielded == w.insts[i].yielded
    ensures !(s.Poll? && s.i == i)
  {
    match s {
      case Start(_, _, _, _) => DoneStart(w, s, i);
      case SendChunk(j, _, _) => SendKeeps(w, s, j);
      case SendEnd(j, _) => SendKeeps(w, s, j);
      case Poll(_, _, _) => DonePoll(w, s, i);
      case Peer(j, body) => PeerKeeps(w, j, body);
      case _ =>
    }
  }

  lemma DoneStart(w: World, s: Step, i: nat)
    requires Shape(w) && s.Start? && Enabled(w, s) && i < |w.insts| && w.insts[i].phase == Done
    ensures i < |Take(w, s).insts|
    ensures Take(w, s).insts[i].phase == Done && Take(w, s).insts[i].yielded == w.insts[i].yielded
  {
    SameInst(w, s.ev, i);
    EventFrame(w, s.ev);
    InsertChanges(Prepared(w, s.ev), s.x, s.order, s.o);
  }

  lemma DonePoll(w: World, s: Step, i: nat)
    requires Shape(w) && s.Poll? && Enabled(w, s) && i < |w.insts| && w.insts[i].phase == Done
    ensures i < |Take(w, s).insts|
    ensures Take(w, s).insts[i].phase == Done && Take(w, s).insts[i].yielded == w.insts[i].yielded
  {
    SameInst(w, s.ev, i);
  }

  /** How often body i is polled. */
  function Polls(steps: seq<Step>, i: nat): nat
  {
    if steps == [] then 0
    else
      var s := steps[|steps| - 1];
      Polls(steps[..|steps| - 1], i) + if s.Poll? && s.i == i then 1 else 0
  }

  predicate NotDropped(steps: seq<Step>, i: nat)
  {
    forall k :: 0 <= k < |steps| ==> !(steps[k].Drop? && steps[k].i == i)
  }

  /** Where a body with buf still to give out is after n polls. */
  predicate PolledOut(r: World, i: nat, buf: seq<bytes>, yielded: bytes, n: nat)
    requires Shape(r)
  {
    if n < |buf| || n == 0 then
      n <= |buf| && Finishing(r, i, buf[n..], yielded + Flatten(buf[..n]))
    else
      n == (if buf == [] then 1 else |buf|)
      && i < |r.insts| && r.insts[i].phase == Done && r.insts[i].yielded == yielded + Flatten(buf)
  }

  /** The accounts hold throughout, and body i has been polled n times. */
  predicate PolledSoFar(w: World, i: nat, buf: seq<bytes>, yielded: bytes, n: nat)
  {
    Flow(w) && PolledOut(w, i, buf, yielded, n)
  }

  lemma NotPolledYet(w: World, i: nat, buf: seq<bytes>, yielded: bytes)
    requires Flow(w) && Finishing(w, i, buf, yielded)
    ensures PolledSoFar(w, i, buf, yielded, 0)
  {
    assert buf[0..] == buf && buf[..0] == [] && yielded + [] == yielded;
  }

  lemma {:induction false} PolledAfter(w: World, steps: seq<Step>, i: nat, buf: seq<bytes>, yielded: bytes)
    requires Shape(w) && Exec(w, steps).Some? && PolledSoFar(w, i, buf, yielded, 0) && NotDropped(steps, i)
    ensures PolledSoFar(Exec(w, steps).value, i, buf, yielded, Polls(steps, i))
    decreases |steps|
  {
    if steps != [] {
      var front := steps[..|steps| - 1];
      FrontRuns(w, steps);
      PolledAfter(w, front, i, buf, yielded);
      PolledNext(Exec(w, front).value, steps[|steps| - 1], i, buf, yielded, Polls(front, i));
    }
  }

  lemma FrontRuns(w: World, steps: seq<Step>)
    requires Shape(w) && steps != [] && Exec(w, steps).Some?
    ensures var front := steps[..|steps| - 1];
            Exec(w, front).Some? && Exec(w, steps) == Next(Exec(w, front), steps[|steps| - 1])
  {}

  lemma PolledNext(w: World, s: Step, i: nat, buf: seq<bytes>, yielded: bytes, n: nat)
    requires PolledSoFar(w, i, buf, yielded, n) && Next(Some(w), s).Some? && !(s.Drop? && s.i == i)
    ensures PolledSoFar(Next(Some(w), s).value, i, buf, yielded, n + if s.Poll? && s.i == i then 1 else 0)
  {
    FlowStep(w, s);
    OneMoreStep(w, s, i, buf, yielded, n);
  }

  lemma OneMoreStep(w: World, s: Step, i: nat, buf: seq<bytes>, yielded: bytes, n: nat)
    requires Flow(w) && Enabled(w, s) && PolledOut(w, i, buf, yielded, n) && !(s.Drop? && s.i == i)
    ensures PolledOut(Take(w, s), i, buf, yielded, n + if s.Poll? && s.i == i then 1 else 0)
  {
    if !(n < |buf| || n == 0) {
      AllPolledOut(w, s, i, buf, yielded, n);
    } else if s.Poll? && s.i == i {
      OneMorePoll(w, s, i, buf, yielded, n);
    } else {
      NotItsPoll(w, s, i, buf, yielded, n);
    }
  }

  lemma AllPolledOut(w: World, s: Step, i: nat, buf: seq<bytes>, yielded: bytes, n: nat)
    requires Flow(w) && Enabled(w, s) && PolledOut(w, i, buf, yielded, n) && !(n < |buf| || n == 0)
    ensures PolledOut(Take(w, s), i, buf, yielded, n) && !(s.Poll? && s.i == i)
  {
    DoneStays(w, s, i);
  }

  lemma NotItsPoll(w: World, s: Step, i: nat, buf: seq<bytes>, yielded: bytes, n: nat)
    requires Flow(w) && Enabled(w, s) && PolledOut(w, i, buf, yielded, n) && (n < |buf| || n == 0)
    requires !(s.Poll? && s.i == i) && !(s.Drop? && s.i == i)
    ensures PolledOut(Take(w, s), i, buf, yielded, n)
  {
    FinishingStep(w, s, i, buf[n..], yielded + Flatten(buf[..n]));
  }

  lemma OneMorePoll(w: World, s: Step, i: nat, buf: seq<bytes>, yielded: bytes, n: nat)
    requires Flow(w) && Enabled(w, s) && PolledOut(w, i, buf, yielded, n) && (n < |buf| || n == 0)
    requires s.Poll? && s.i == i
    ensures PolledOut(Take(w, s), i, buf, yielded, n + 1)
  {
    FinishingPoll(w, s, i, buf[n..], yielded + Flatten(buf[..n]));
    TakeMore(buf, yielded, n);
  }

  lemma TakeMore(buf: seq<bytes>, yielded: bytes, n: nat)
    requires n <= |buf|
    ensures yielded + Flatten(buf[..n]) + Flatten(buf[n..]) == yielded + Flatten(buf)
    ensures n < |buf| ==> buf[n..][1..] == buf[n + 1..] && buf[n..][0] == buf[n]
    ensures n < |buf| ==> yielded + Flatten(buf[..n]) + buf[n] == yielded + Flatten(buf[..n + 1])
  {
    assert buf == buf[..n] + buf[n..];
    FlattenAppend(buf[..n], buf[n..]);
    Associate(yielded, Flatten(buf[..n]), Flatten(buf[n..]));
    if n < |buf| {
      TakeOne(buf, yielded, n);
    }
  }

  lemma TakeOne(buf: seq<bytes>, yielded: bytes, n: nat)
    requires n < |buf|
    ensures yielded + Flatten(buf[..n]) + buf[n] == yielded + Flatten(buf[..n + 1])
  {
    assert buf[..n + 1] == buf[..n] + [buf[n]];
    FlattenPush(buf[..n], buf[n]);
    Associate(yielded, Flatten(buf[..n]), buf[n]);
  }

  /**
   * A returned body whose request has ended gives out exactly what is buffered, one buffer for each of its polls,
   * whatever else is going on; with the last buffer, not a poll earlier or later, it is done and its slot is free.
   */
  lemma EndedBodyFinishes(w: World, steps: seq<Step>, i: nat)
    requires Reachable(w) && Shape(w) && i < |w.insts| && w.insts[i].phase == Returned && w.insts[i].sending == Ended
    requires Holds(w, i) && w.slots[w.insts[i].rid].value.ended
    requires Exec(w, steps).Some? && NotDropped(steps, i)
    ensures var r, n, buf := Exec(w, steps).value, Polls(steps, i), w.slots[w.insts[i].rid].value.buf;
            && i < |r.insts| && n <= (if buf == [] then 1 else |buf|)
            && r.insts[i].yielded == w.insts[i].yielded + Flatten(buf[..if n <= |buf| then n else |buf|])
            && (r.insts[i].phase == Done <==> n == if buf == [] then 1 else |buf|)
            && (Holds(r, i) <==> r.insts[i].phase != Done)
  {
    ReachableKeeps(w);
    var r, n, buf := Exec(w, steps).value, Polls(steps, i), w.slots[w.insts[i].rid].value.buf;
    NotPolledYet(w, i, buf, w.insts[i].yielded);
    PolledAfter(w, steps, i, buf, w.insts[i].yielded);
    if r.insts[i].phase == Done {
      assert buf[..|buf|] == buf && SlotOk(r, r.insts[i].rid);
    }
  }
}
