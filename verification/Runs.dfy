/** What holds after every run of the client, whatever the peer, the network and the callers do. */
module Runs {
  import opened Octets
  import opened Records
  import opened Framing
  import opened Connection
  import opened Requests
  import opened Client
  import opened Ownership
  import opened Delivery
  import opened Senders

  /** w is the state after some run of a connection for at most max requests. */
  ghost predicate Reachable(w: World)
  {
    exists steps :: w.max < 0x1_0000 && After(w.max, steps) == Some(w)
  }

  lemma {:induction false} RunKeeps(max: nat, steps: seq<Step>)
    requires max < 0x1_0000 && After(max, steps).Some?
    ensures Flow(After(max, steps).value) && Wire(After(max, steps).value)
    ensures After(max, steps).value.max == max
  {
    if steps != [] {
      var n := |steps| - 1;
      var w := After(max, steps[..n]).value;
      RunKeeps(max, steps[..n]);
      FlowStep(w, steps[n]);
      WireStep(w, steps[n]);
      MaxKept(w, steps[n]);
    }
  }

  lemma MaxKept(w: World, s: Step)
    requires Shape(w) && Enabled(w, s)
    ensures Take(w, s).max == w.max
  {
    match s {
      case Start(ev, _, _, _) => EventFrame(w, ev);
      case Poll(_, ev, _) => EventFrame(w, ev);
      case _ =>
    }
  }

  lemma ReachableKeeps(w: World)
    requires Reachable(w)
    ensures Flow(w) && Wire(w)
  {
    var steps :| After(w.max, steps) == Some(w);
    RunKeeps(w.max, steps);
  }

  /** Slot ownership: every live body has its own slot and its own ID, in 1..=max; nothing it does can miss it. */
  lemma SlotOwnership(w: World, i: nat, ev: Event)
    requires Reachable(w) && i < |w.insts| && Live(w.insts[i]) && Possible(w, ev)
    ensures Shape(w) && Holds(w, i) && 1 <= IdOf(w, i) <= w.max
    ensures forall j :: 0 <= j < |w.insts| && j != i && Live(w.insts[j]) ==> IdOf(w, j) != IdOf(w, i)
    ensures Occupied(Happen(w, ev).slots, w.insts[i].rid)
    ensures w.insts[i].phase == Parsing && w.insts[i].heading == Parsed && Forwarded(w.insts[i]) ==>
              forall head :: 1 <= head <= |w.insts[i].taken| || head == |w.insts[i].taken| ==>
                Enabled(w, Step.Handover(i, head))
  {
    ReachableKeeps(w);
    assert InstOk(w, i);
    OneIdEach(w, i);
    StillHolds(w, i, ev);
    HandoverFindsSlot(w, i);
  }

  lemma OneIdEach(w: World, i: nat)
    requires Core(w) && i < |w.insts| && Live(w.insts[i])
    ensures forall j :: 0 <= j < |w.insts| && j != i && Live(w.insts[j]) ==> IdOf(w, j) != IdOf(w, i)
  {
    assert InstOk(w, i);
    forall j | 0 <= j < |w.insts| && j != i && Live(w.insts[j]) ensures IdOf(w, j) != IdOf(w, i) {
      assert InstOk(w, j);
    }
  }

  lemma HandoverFindsSlot(w: World, i: nat)
    requires Shape(w) && i < |w.insts| && Holds(w, i)
    ensures w.insts[i].phase == Parsing && w.insts[i].heading == Parsed && Forwarded(w.insts[i]) ==>
              forall head :: 1 <= head <= |w.insts[i].taken| || head == |w.insts[i].taken| ==>
                Enabled(w, Step.Handover(i, head))
  {}

  lemma StillHolds(w: World, i: nat, ev: Event)
    requires Core(w) && i < |w.insts| && Live(w.insts[i]) && Possible(w, ev)
    ensures Occupied(Happen(w, ev).slots, w.insts[i].rid)
  {
    CoreHappen(w, ev);
    SameInst(w, ev, i);
    assert InstOk(Happen(w, ev), i);
  }

  /** Permit conservation; a request that has its permit always finds an entry below the limit. */
  lemma PermitConservation(w: World, ev: Event, x: nat)
    requires Reachable(w) && Possible(w, ev)
    ensures Shape(w) && w.permits + w.pending + Count(w.slots) == w.max
    ensures w.pending > 0 && Vacant(Happen(w, ev).slots, x) ==> x < w.max
  {
    ReachableKeeps(w);
    CoreHappen(w, ev);
    EventFrame(w, ev);
    CountBound(Happen(w, ev).slots);
  }

  /** No sleeping request with work: a stored waker means an empty buffer and no end. */
  lemma NoSleeperWithWork(w: World, x: nat)
    requires Reachable(w) && Occupied(w.slots, x) && w.slots[x].value.waker
    ensures w.slots[x].value.buf == [] && !w.slots[x].value.ended
  {
    ReachableKeeps(w);
    assert SlotOk(w, x);
  }

  /** The output still buffered for a request that is not over. */
  function Buffered(w: World, i: nat): bytes
    requires Shape(w) && i < |w.insts|
  {
    var x := w.insts[i].rid;
    if w.insts[i].phase == Done || w.slots[x].None? then [] else Flatten(w.slots[x].value.buf)
  }

  /** What went into the header, what the body has yielded, and what is still buffered. */
  function Output(w: World, i: nat): bytes
    requires Shape(w) && i < |w.insts|
  {
    w.insts[i].taken + w.insts[i].yielded + Buffered(w, i)
  }

  /**
   * No cross-talk: the output of a request is a prefix of what the peer sent for this very request, with what the
   * handover left over moved behind what it found queued, and otherwise in order.
   */
  lemma NoCrossTalk(w: World, i: nat)
    requires Reachable(w) && i < |w.insts| && (Live(w.insts[i]) || w.insts[i].phase == Done)
    ensures Shape(w)
    ensures var inst := w.insts[i];
            && inst.delivered <= inst.sent
            && inst.head + inst.left + inst.queued <= |inst.delivered|
            && Output(w, i) == Swap(inst.delivered, inst.head, inst.left, inst.queued)
            && (inst.phase == Parsing ==> Output(w, i) == inst.delivered)
  {
    ReachableKeeps(w);
    assert InstOk(w, i) && FlowOk(w, i) && SentOk(w, i);
    assert Account(w.insts[i], Buffered(w, i));
    SwapNothing(w.insts[i].delivered);
  }

  /** Exactly once: on a connection that is still up, a body that has ended has given out all that was sent. */
  lemma EndedBodyIsComplete(w: World, i: nat)
    requires Reachable(w) && i < |w.insts| && w.insts[i].phase == Done
    ensures var inst := w.insts[i];
            && inst.head + inst.left + inst.queued <= |inst.delivered|
            && inst.taken + inst.yielded == Swap(inst.delivered, inst.head, inst.left, inst.queued)
            && (!w.dead && inst.epoch == w.epoch ==> inst.delivered == inst.sent)
  {
    ReachableKeeps(w);
    assert FlowOk(w, i) && SentOk(w, i);
    var inst := w.insts[i];
    assert inst.taken + inst.yielded + [] == inst.taken + inst.yielded;
  }

  /**
   * An ID is given to a new request only when no live body has it, and no request whose end record is still to
   * come on this connection.
   */
  lemma IdReuse(w: World, s: Step, i: nat)
    requires Reachable(w) && s.Start? && Shape(w) && Enabled(w, s) && i < |w.insts|
    ensures Live(w.insts[i]) ==> w.insts[i].rid != s.x
    ensures var h := Happen(w, s.ev);
            !s.ev.Lost? && w.insts[i].epoch == w.epoch
            && (!w.insts[i].peerEnded || exists k :: 0 <= k < |h.inflight| && h.inflight[k].inst == i)
            ==> w.insts[i].rid != s.x
  {
    ReachableKeeps(w);
    var h := Happen(w, s.ev);
    FlowHappen(w, s.ev);
    SameInst(w, s.ev, i);
    EventFrame(w, s.ev);
    assert InstOk(h, i) && SentOk(h, i);
    if k :| 0 <= k < |h.inflight| && h.inflight[k].inst == i && !s.ev.Lost? {
      assert QueueOk(h, k);
    }
  }

  /**
   * Any schedule of concurrent senders, with writes that fail: parsing the bytes on the wire and keeping the records
   * of one request gives its begin record, its parameters as one stream, its input, and at last the end of the input
   * exactly when it was sent completely, or an abort. Only of a request whose opening failed at once nothing is seen.
   */
  lemma SendersDemultiplex(w: World, i: nat)
    requires Reachable(w) && i < |w.insts| && w.insts[i].epoch == w.epoch
    ensures Shape(w) && Sized(RecsOf(w.wire))
    ensures var inst := w.insts[i];
            var recs := Deframe(PeerBytes(w));
            && (inst.phase != Unopened || inst.partial != [] ==>
                  && inst.start < |recs| && recs[inst.start].rtype == BeginRequest
                  && recs[inst.start].id == IdOf(w, i)
                  && Conforms(inst, PeerView(recs, inst.start, IdOf(w, i))))
            && (inst.phase != Rejected ==>
                  && (inst.sending == Ended ==> Missing(inst.announced, |Flatten(inst.input)|) == 0)
                  && (inst.sending == Aborted ==> Missing(inst.announced, |Flatten(inst.input)|) > 0))
  {
    ReachableKeeps(w);
    PeerReads(w);
    assert OwnOk(w.insts[i]);
    if w.insts[i].phase != Unopened || w.insts[i].partial != [] {
      ScriptStarts(w.insts[i]);
      EveryRequestBegins(w, i);
      PeerSeesScripts(w, w.insts[i].start);
      BeginsOwn(w, w.insts[i].start);
      ScriptConforms(w.insts[i]);
    }
  }

  /**
   * Senders of an earlier connection that go on: what they write has an ID that has not begun on this connection, and
   * is input, its end, or an abort. Such records, and no others, come before any begin of their ID.
   */
  lemma StrayRecords(w: World, k: nat)
    requires Reachable(w) && k < |w.wire|
    ensures Shape(w) && Sized(RecsOf(w.wire)) && w.wire[k].inst < |w.insts|
    ensures var recs, inst := Deframe(PeerBytes(w)), w.insts[w.wire[k].inst];
            && k < |recs| && recs[k].id == inst.rid + 1 && inst.epoch <= w.epoch
            && (LastBegin(recs[..k + 1], recs[k].id) == None <==> inst.epoch < w.epoch)
            && (inst.epoch < w.epoch ==> OfBody(recs[k]))
            && (inst.epoch == w.epoch ==> LastBegin(recs[..k + 1], recs[k].id) == Some(inst.start))
  {
    ReachableKeeps(w);
    PeerReads(w);
    StrayOnWire(w, k);
  }

  lemma StrayOnWire(w: World, k: nat)
    requires Wire(w) && k < |w.wire|
    ensures w.wire[k].inst < |w.insts|
    ensures var recs, inst := RecsOf(w.wire), w.insts[w.wire[k].inst];
            && |recs| == |w.wire| && recs[k] == w.wire[k].rec && recs[k].id == inst.rid + 1 && inst.epoch <= w.epoch
            && (LastBegin(recs[..k + 1], recs[k].id) == None <==> inst.epoch < w.epoch)
            && (inst.epoch < w.epoch ==> OfBody(recs[k]))
            && (inst.epoch == w.epoch ==> LastBegin(recs[..k + 1], recs[k].id) == Some(inst.start))
  {
    assert RecOk(w, k) && InstOk(w, w.wire[k].inst);
    assert RecsOf(w.wire[..k + 1]) == RecsOf(w.wire)[..k + 1];
  }

  // ---------- the handover ----------

  /** The guard of an order-keeping handover: nothing left over, or nothing queued. */
  predicate CleanHandover(w: World, i: nat, head: nat)
    requires Shape(w) && i < |w.insts| && head <= |w.insts[i].taken|
  {
    head == |w.insts[i].taken| || w.slots[w.insts[i].rid].None? || w.slots[w.insts[i].rid].value.buf == []
  }

  /** The order of n bytes survives, whatever the bytes are. */
  ghost predicate KeepsOrder(n: nat, h: nat, l: nat, q: nat)
    requires h + l + q <= n
  {
    forall d: bytes :: |d| == n ==> Swap(d, h, l, q) == d
  }

  /**
   * The handover keeps the order of the output, for all contents of that output, exactly if nothing is left over
   * behind the header or nothing has been queued meanwhile.
   */
  lemma HandoverOrder(w: World, i: nat, head: nat)
    requires Reachable(w) && Shape(w) && Enabled(w, Step.Handover(i, head))
    ensures var r := Take(w, Step.Handover(i, head));
            var inst := r.insts[i];
            && inst.delivered == w.insts[i].delivered
            && inst.head + inst.left + inst.queued <= |inst.delivered|
            && Output(w, i) == inst.delivered
            && Output(r, i) == Swap(inst.delivered, inst.head, inst.left, inst.queued)
            && (KeepsOrder(|inst.delivered|, inst.head, inst.left, inst.queued) <==> CleanHandover(w, i, head))
  {
    ReachableKeeps(w);
    var r := Take(w, Step.Handover(i, head));
    FlowHandover(w, i, head);
    assert InstOk(w, i) && InstOk(r, i) && FlowOk(r, i) && SlotOk(w, w.insts[i].rid);
    NoCrossTalk(w, i);
    HandoverOwn(w, i, head);
    HandoverAccounted(r, i);
    EmptyIsEmpty(w.slots[w.insts[i].rid].value.buf);
    OrderKept(|r.insts[i].delivered|, r.insts[i].head, r.insts[i].left, r.insts[i].queued);
  }

  lemma HandoverAccounted(w: World, i: nat)
    requires Shape(w) && i < |w.insts| && w.insts[i].phase == Returned && Holds(w, i) && FlowOk(w, i)
    ensures var inst := w.insts[i];
            && inst.head + inst.left + inst.queued <= |inst.delivered|
            && Output(w, i) == Swap(inst.delivered, inst.head, inst.left, inst.queued)
  {
    assert Account(w.insts[i], Buffered(w, i));
  }

  lemma OrderKept(n: nat, h: nat, l: nat, q: nat)
    requires h + l + q <= n
    ensures KeepsOrder(n, h, l, q) <==> l == 0 || q == 0
  {
    if l > 0 && q > 0 {
      var d: bytes := seq(n, k => if k < h + l then 0 else 1);
      QueuedFirst(d, h, l, q);
      assert d[h] == 0 && d[h + l] == 1;
    } else {
      forall d: bytes | |d| == n ensures Swap(d, h, l, q) == d {
        NothingSwapped(d, h, l, q);
      }
    }
  }

  lemma QueuedFirst(d: bytes, h: nat, l: nat, q: nat)
    requires h + l + q <= |d| && q > 0
    ensures Swap(d, h, l, q)[h] == d[h + l]
  {}

  lemma NothingSwapped(d: bytes, h: nat, l: nat, q: nat)
    requires h + l + q <= |d| && (l == 0 || q == 0)
    ensures Swap(d, h, l, q) == d
  {}
}
