/** Slots, permits and wakers: what every step of the client keeps. */
module Ownership {
  import opened Octets
  import opened Records
  import opened Framing
  import opened Requests
  import opened Client

  function Count(slots: Slab): nat
  {
    if slots == [] then 0 else (if slots[0].Some? then 1 else 0) + Count(slots[1..])
  }

  lemma {:induction false} CountUpdate(slots: Slab, x: nat, q: Option<Request>)
    requires x < |slots|
    ensures Count(slots[x := q]) == Count(slots) - (if slots[x].Some? then 1 else 0) + (if q.Some? then 1 else 0)
  {
    var after := slots[x := q];
    if x == 0 {
      assert after[1..] == slots[1..];
    } else {
      assert after[1..] == slots[1..][x - 1 := q];
      CountUpdate(slots[1..], x - 1, q);
    }
  }

  lemma {:induction false} CountPush(slots: Slab, q: Option<Request>)
    ensures Count(slots + [q]) == Count(slots) + (if q.Some? then 1 else 0)
  {
    if slots == [] {
      assert slots + [q] == [q] && [q][1..] == [];
    } else {
      assert (slots + [q])[1..] == slots[1..] + [q];
      CountPush(slots[1..], q);
    }
  }

  lemma {:induction false} CountBound(slots: Slab)
    ensures Count(slots) <= |slots|
    ensures Count(slots) == |slots| <==> forall x :: 0 <= x < |slots| ==> slots[x].Some?
  {
    if slots != [] {
      CountBound(slots[1..]);
      assert forall x :: 1 <= x < |slots| ==> slots[x] == slots[1..][x - 1];
    }
  }

  lemma {:induction false} CountSame(a: Slab, b: Slab)
    requires |a| == |b| && forall x :: 0 <= x < |a| ==> (a[x].Some? <==> b[x].Some?)
    ensures Count(a) == Count(b)
  {
    if a != [] {
      CountSame(a[1..], b[1..]);
    }
  }

  /** A body waits only as long as its header is being read, or in the hands of the caller. */
  predicate MaySleep(inst: Inst)
  {
    inst.waiting && inst.phase == Parsing ==> inst.heading == Reading
  }

  /** A waker is stored for a body that waits, until there is something to read or an end, or nobody wants it. */
  predicate Sleeps(inst: Inst, q: Request)
  {
    inst.waiting && q.buf == [] && !q.ended && !q.aborted
  }

  /** An occupied slot belongs to an unfinished instance, and holds a waker exactly if that has to be woken. */
  predicate SlotOk(w: World, x: nat)
    requires Shape(w) && x < |w.slots|
  {
    w.slots[x].Some? ==>
      var q, j := w.slots[x].value, w.owner[x];
      && w.insts[j].rid == x
      && w.insts[j].phase != Done
      && (q.aborted ==> w.insts[j].phase == Dropped)
      && NoEmpty(q.buf)
      && (q.waker <==> Sleeps(w.insts[j], q))
  }

  /** Every request that is not over has its slot, and sends only while it has. */
  predicate InstOk(w: World, i: nat)
    requires Shape(w) && i < |w.insts|
  {
    var inst := w.insts[i];
    && inst.epoch <= w.epoch
    && (inst.phase == Rejected || inst.phase == Unopened || Live(inst) ==> Holds(w, i))
    && (inst.sending == Open ==> Live(inst)) && MaySleep(inst)
  }

  predicate Core(w: World)
  {
    && Shape(w)
    && (forall x :: 0 <= x < |w.slots| ==> SlotOk(w, x))
    && (forall i :: 0 <= i < |w.insts| ==> InstOk(w, i))
    && w.permits + w.pending + Count(w.slots) == w.max
  }

  /** What delivering the first record in flight changes: one slot, and what its owner has been given. */
  lemma DeliverChanges(w: World)
    requires Shape(w) && w.inflight != []
    ensures var x, r := w.insts[w.inflight[0].inst].rid, Deliver(w);
            && r.slots == w.slots[x := r.slots[x]] && r.owner == w.owner && |r.insts| == |w.insts|
            && (w.slots[x].None? ==> r.slots[x].None?)
            && (forall i :: 0 <= i < |w.insts| ==>
                  w.insts[i] == r.insts[i].(delivered := w.insts[i].delivered))
  {}

  lemma CoreDeliver(w: World)
    requires Core(w) && w.inflight != []
    ensures Core(Deliver(w))
  {
    var x, r := w.insts[w.inflight[0].inst].rid, Deliver(w);
    DeliverChanges(w);
    CountUpdate(w.slots, x, r.slots[x]);
    DeliverSlot(w);
    CoreFrame(w, r, x);
  }

  lemma DeliverSlot(w: World)
    requires Core(w) && w.inflight != []
    ensures SlotOk(Deliver(w), w.insts[w.inflight[0].inst].rid)
    ensures var x, r := w.insts[w.inflight[0].inst].rid, Deliver(w);
            w.slots[x].Some? && r.slots[x].None? ==> w.slots[x].value.aborted
  {
    assert SlotOk(w, w.insts[w.inflight[0].inst].rid);
  }

  /** Only slot x changed, and it was freed only if its request had been aborted. */
  lemma CoreFrame(w: World, r: World, x: nat)
    requires Core(w) && Shape(r) && x < |w.slots| == |r.slots| && SlotOk(r, x)
    requires r.slots == w.slots[x := r.slots[x]] && r.owner == w.owner && |r.insts| == |w.insts|
    requires w.slots[x].Some? && r.slots[x].None? ==> w.slots[x].value.aborted
    requires w.slots[x].None? ==> r.slots[x].None?
    requires forall i :: 0 <= i < |w.insts| ==> w.insts[i] == r.insts[i].(delivered := w.insts[i].delivered)
    requires r.epoch == w.epoch && r.permits + r.pending + Count(r.slots) == r.max
    ensures Core(r)
  {
    forall y | 0 <= y < |r.slots| ensures SlotOk(r, y) {
      assert SlotOk(w, y);
    }
    assert SlotOk(w, x);
    forall i | 0 <= i < |r.insts| ensures InstOk(r, i) {
      assert InstOk(w, i);
    }
  }

  lemma {:induction false} CoreDeliverMany(w: World, k: nat)
    requires Core(w) && k <= |w.inflight|
    ensures Core(DeliverMany(w, k))
    decreases k
  {
    if k > 0 {
      CoreDeliver(w);
      CoreDeliverMany(Deliver(w), k - 1);
    }
  }

  lemma CoreLose(w: World)
    requires Core(w)
    ensures Core(Lose(w))
  {
    var r := Lose(w);
    CountSame(w.slots, r.slots);
    forall y | 0 <= y < |r.slots| ensures SlotOk(r, y) {
      assert SlotOk(w, y);
    }
    forall i | 0 <= i < |r.insts| ensures InstOk(r, i) {
      assert InstOk(w, i);
    }
  }

  lemma CoreReconnect(w: World)
    requires Core(w)
    ensures Core(Reconnect(w))
  {
    var r := Reconnect(w);
    forall y | 0 <= y < |r.slots| ensures SlotOk(r, y) {
      assert SlotOk(w, y);
    }
    forall i | 0 <= i < |r.insts| ensures InstOk(r, i) {
      assert InstOk(w, i);
    }
  }

  lemma CoreHappen(w: World, ev: Event)
    requires Core(w) && Possible(w, ev)
    ensures Core(Happen(w, ev))
  {
    match ev {
      case Idle =>
      case Got(k) => CoreDeliverMany(w, k);
      case Lost => CoreLose(w);
    }
  }

  lemma CorePrepared(w: World, ev: Event)
    requires Core(w) && Possible(w, ev)
    ensures Core(Prepared(w, ev))
  {
    CoreHappen(w, ev);
    if ev.Lost? {
      CoreReconnect(Happen(w, ev));
    }
  }

  lemma CoreInsert(w: World, x: nat, order: Order, o: Outcome)
    requires Core(w) && w.pending > 0 && Vacant(w.slots, x) && x < w.max
    ensures Core(Insert(w, x, order, o))
  {
    var r := Insert(w, x, order, o);
    if x < |w.slots| {
      CountUpdate(w.slots, x, Some(FRESH));
    } else {
      CountPush(w.slots, Some(FRESH));
    }
    forall y | 0 <= y < |r.slots| ensures SlotOk(r, y) {
      if y != x {
        assert SlotOk(w, y);
      }
    }
    forall i | 0 <= i < |r.insts| ensures InstOk(r, i) {
      if i < |w.insts| {
        assert InstOk(w, i);
      }
    }
  }

  lemma CorePollOne(w: World, i: nat, complete: bool)
    requires Core(w) && i < |w.insts| && Pollable(w.insts[i])
    ensures Core(PollOne(w, i, complete))
  {
    var r := PollOne(w, i, complete);
    var x := w.insts[i].rid;
    assert InstOk(w, i) && SlotOk(w, x);
    CountUpdate(w.slots, x, r.slots[x]);
    PolledSlot(w, i, complete);
    forall y | 0 <= y < |r.slots| ensures SlotOk(r, y) {
      assert SlotOk(w, y);
    }
    forall j | 0 <= j < |r.insts| ensures InstOk(r, j) {
      assert InstOk(w, j);
    }
  }

  lemma PolledSlot(w: World, i: nat, complete: bool)
    requires Shape(w) && i < |w.insts| && Pollable(w.insts[i]) && Holds(w, i) && SlotOk(w, w.insts[i].rid)
    ensures SlotOk(PollOne(w, i, complete), w.insts[i].rid)
  {
    EmptyIsEmpty(w.slots[w.insts[i].rid].value.buf);
  }

  lemma EmptyIsEmpty(bufs: seq<bytes>)
    requires NoEmpty(bufs)
    ensures Flatten(bufs) == [] <==> bufs == []
  {}

  lemma CoreSame(w: World, r: World, i: nat, inst: Inst)
    requires Core(w) && i < |w.insts| && Shape(r)
    requires r.slots == w.slots && r.owner == w.owner && r.insts == w.insts[i := inst]
    requires r.max == w.max && r.permits == w.permits && r.pending == w.pending && r.epoch == w.epoch
    requires inst.rid == w.insts[i].rid && inst.phase == w.insts[i].phase && inst.heading == w.insts[i].heading
    requires inst.waiting == w.insts[i].waiting
    requires inst.epoch == w.insts[i].epoch && (inst.sending == Open ==> w.insts[i].sending == Open)
    ensures Core(r)
  {
    forall y | 0 <= y < |r.slots| ensures SlotOk(r, y) {
      assert SlotOk(w, y);
    }
    forall j | 0 <= j < |r.insts| ensures InstOk(r, j) {
      assert InstOk(w, j);
    }
  }

  /** One instance moves on, and so does its own slot, which stays occupied. */
  lemma CoreOwn(w: World, r: World, i: nat, inst: Inst, q: Request)
    requires Core(w) && i < |w.insts| && Shape(r) && Live(w.insts[i])
    requires var x := w.insts[i].rid;
             r.slots == w.slots[x := Some(q)] && r.owner == w.owner && r.insts == w.insts[i := inst]
    requires r.max == w.max && r.permits == w.permits && r.pending == w.pending && r.epoch == w.epoch
    requires inst.rid == w.insts[i].rid && inst.epoch == w.insts[i].epoch && inst.phase in {Returned, Dropped}
    requires inst.sending == Open ==> w.insts[i].sending == Open && inst.phase == Returned
    requires q.aborted ==> inst.phase == Dropped
    requires NoEmpty(q.buf) && (q.waker <==> Sleeps(inst, q)) && MaySleep(inst)
    ensures Core(r)
  {
    var x := w.insts[i].rid;
    assert InstOk(w, i);
    CountUpdate(w.slots, x, Some(q));
    forall y | 0 <= y < |r.slots| ensures SlotOk(r, y) {
      assert SlotOk(w, y);
    }
    forall j | 0 <= j < |r.insts| ensures InstOk(r, j) {
      assert InstOk(w, j);
    }
  }

  /** The handover changes the request's slot and instance, and keeps the rest. */
  lemma HandoverOwn(w: World, i: nat, head: nat)
    requires Shape(w) && Enabled(w, Step.Handover(i, head)) && Holds(w, i)
    ensures var r, a, left := Take(w, Step.Handover(i, head)), w.insts[i], w.insts[i].taken[head..];
            var q := w.slots[a.rid].value;
            && r == w.(slots := r.slots, insts := w.insts[i := r.insts[i]]) && |r.insts| == |w.insts|
            && r.slots == w.slots[a.rid := Some(if left == [] then q else q.(buf := q.buf + [left]))]
            && r.insts[i] == a.(phase := Returned, taken := a.taken[..head],
                                head := head, left := |left|, queued := |Flatten(q.buf)|)
  {}

  lemma CoreHandover(w: World, i: nat, head: nat)
    requires Core(w) && Enabled(w, Step.Handover(i, head))
    ensures Core(Take(w, Step.Handover(i, head)))
  {
    assert InstOk(w, i) && SlotOk(w, w.insts[i].rid);
    HandoverOwn(w, i, head);
    HandedOver(w, Take(w, Step.Handover(i, head)), i, w.insts[i].taken[head..]);
  }

  lemma HandedOver(w: World, r: World, i: nat, left: bytes)
    requires Core(w) && Shape(r) && i < |w.insts| == |r.insts| && w.insts[i].phase == Parsing
    requires w.insts[i].heading != Reading && w.slots[w.insts[i].rid].Some?
    requires var q := w.slots[w.insts[i].rid].value;
             r.slots == w.slots[w.insts[i].rid := Some(if left == [] then q else q.(buf := q.buf + [left]))]
    requires r == w.(slots := r.slots, insts := w.insts[i := r.insts[i]])
    requires var a, b := w.insts[i], r.insts[i];
             && b.rid == a.rid && b.epoch == a.epoch && b.phase == Returned && b.sending == a.sending
             && b.waiting == a.waiting
    ensures Core(r)
  {
    assert InstOk(w, i) && SlotOk(w, w.insts[i].rid);
    CoreOwn(w, r, i, r.insts[i], r.slots[w.insts[i].rid].value);
  }

  lemma CoreDrop(w: World, i: nat, locked: bool)
    requires Core(w) && Enabled(w, Step.Drop(i, locked))
    ensures Core(Take(w, Step.Drop(i, locked)))
  {
    var r := Take(w, Step.Drop(i, locked));
    var x := w.insts[i].rid;
    assert InstOk(w, i) && SlotOk(w, x);
    var q := r.slots[x].value;
    assert r.slots == w.slots[x := Some(q)];
    CoreOwn(w, r, i, r.insts[i], q);
  }

  lemma CoreSend(w: World, s: Step, i: nat)
    requires Core(w) && Enabled(w, s) && (s.SendChunk? || s.SendEnd?) && i == s.i
    ensures Core(Take(w, s))
  {
    var r := Take(w, s);
    CoreSame(w, r, i, r.insts[i]);
  }

  lemma CorePeer(w: World, s: Step)
    requires Core(w) && s.Peer? && Enabled(w, s)
    ensures Core(Take(w, s))
  {
    var r := Take(w, s);
    CoreSame(w, r, s.i, r.insts[s.i]);
  }

  lemma CoreStart(w: World, s: Step)
    requires Core(w) && s.Start? && Enabled(w, s)
    ensures Core(Take(w, s))
  {
    CorePrepared(w, s.ev);
    EventFrame(w, s.ev);
    CoreInsert(Prepared(w, s.ev), s.x, s.order, s.o);
  }

  lemma CoreStep(w: World, s: Step)
    requires Core(w) && Enabled(w, s)
    ensures Core(Take(w, s))
  {
    match s {
      case Acquire => CoreCounters(w, Take(w, s));
      case GiveUp => CoreLose(w); CoreCounters(Lose(w), Take(w, s));
      case Start(_, _, _, _) => CoreStart(w, s);
      case SendChunk(i, _, _) => CoreSend(w, s, i);
      case SendEnd(i, _) => CoreSend(w, s, i);
      case Peer(_, _) => CorePeer(w, s);
      case Poll(i, ev, complete) =>
        CoreHappen(w, ev);
        SameInst(w, ev, i);
        CorePollOne(Happen(w, ev), i, complete);
      case Handover(i, head) => CoreHandover(w, i, head);
      case Drop(i, locked) => CoreDrop(w, i, locked);
    }
  }

  lemma CoreCounters(w: World, r: World)
    requires Core(w) && r == w.(permits := r.permits, pending := r.pending)
    requires r.permits + r.pending == w.permits + w.pending
    ensures Core(r)
  {
    forall y | 0 <= y < |r.slots| ensures SlotOk(r, y) {
      assert SlotOk(w, y);
    }
    forall j | 0 <= j < |r.insts| ensures InstOk(r, j) {
      assert InstOk(w, j);
    }
  }

  /** Polling the connection changes of an instance only what has been delivered to it. */
  lemma SameInst(w: World, ev: Event, i: nat)
    requires Shape(w) && Possible(w, ev) && i < |w.insts|
    ensures |Happen(w, ev).insts| == |w.insts|
    ensures w.insts[i] == Happen(w, ev).insts[i].(delivered := w.insts[i].delivered)
  {
    if ev.Got? {
      SameInstMany(w, ev.k, i);
    }
  }

  lemma {:induction false} SameInstMany(w: World, k: nat, i: nat)
    requires Shape(w) && k <= |w.inflight| && i < |w.insts|
    ensures |DeliverMany(w, k).insts| == |w.insts|
    ensures w.insts[i] == DeliverMany(w, k).insts[i].(delivered := w.insts[i].delivered)
    decreases k
  {
    if k > 0 {
      DeliverChanges(w);
      SameInstMany(Deliver(w), k - 1, i);
    }
  }
}
