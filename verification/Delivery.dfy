/** Whose bytes go where: accounting of the output from the peer to the caller, over every step. */
module Delivery {
  import opened Octets
  import opened Records
  import opened Requests
  import opened Client
  import opened Ownership

  /** The output of instance i in a queue of records. */
  function Afloat(q: seq<PeerRec>, i: nat): bytes
  {
    if q == [] then []
    else (if q[0].inst == i && q[0].body.StdOutBody? then q[0].body.out else []) + Afloat(q[1..], i)
  }

  lemma {:induction false} AfloatPush(q: seq<PeerRec>, p: PeerRec, i: nat)
    ensures Afloat(q + [p], i) == Afloat(q, i) + if p.inst == i && p.body.StdOutBody? then p.body.out else []
  {
    if q == [] {
      assert q + [p] == [p] && [p][1..] == [];
    } else {
      assert (q + [p])[1..] == q[1..] + [p];
      AfloatPush(q[1..], p, i);
    }
  }

  lemma {:induction false} AfloatNone(q: seq<PeerRec>, i: nat)
    requires forall k :: 0 <= k < |q| ==> q[k].inst != i
    ensures Afloat(q, i) == []
  {
    if q != [] {
      AfloatNone(q[1..], i);
    }
  }

  /** The list d, with its l elements from h on moved behind the q elements that follow them. */
  function Swap<T>(d: seq<T>, h: nat, l: nat, q: nat): (r: seq<T>)
    requires h + l + q <= |d|
    ensures |r| == |d|
  {
    d[..h] + d[h + l..h + l + q] + d[h..h + l] + d[h + l + q..]
  }

  /** What was taken, yielded and is still buffered is what was distributed, with the pieces of the handover swapped. */
  predicate Account(inst: Inst, f: bytes)
  {
    && inst.head + inst.left + inst.queued <= |inst.delivered|
    && inst.taken + inst.yielded + f == Swap(inst.delivered, inst.head, inst.left, inst.queued)
  }

  predicate FlowOk(w: World, i: nat)
    requires Shape(w) && i < |w.insts|
  {
    var inst := w.insts[i];
    && (inst.phase == Parsing ==> inst.yielded == [] && inst.head == inst.left == inst.queued == 0)
    && (inst.phase == Done ==> Account(inst, []))
    && (Holds(w, i) && Live(inst) ==> Account(inst, Flatten(w.slots[inst.rid].value.buf)))
  }

  /** What has been delivered to i is the start of what was sent for i; the rest is on its way. */
  predicate SentOk(w: World, i: nat)
    requires Shape(w) && i < |w.insts|
  {
    var inst := w.insts[i];
    && inst.delivered <= inst.sent
    && (!w.dead && inst.epoch == w.epoch && !inst.peerEnded ==> Holds(w, i) && !w.slots[inst.rid].value.ended)
    && (!w.dead && inst.epoch == w.epoch && Holds(w, i) && !w.slots[inst.rid].value.aborted ==>
          inst.delivered + Afloat(w.inflight, i) == inst.sent)
    && (!w.dead && inst.epoch == w.epoch && inst.phase == Done ==> inst.delivered == inst.sent)
  }

  /** A record in flight on a living connection finds its own request in its slot, not ended. */
  predicate QueueOk(w: World, k: nat)
    requires Shape(w) && k < |w.inflight|
  {
    var i := w.inflight[k].inst;
    var body := w.inflight[k].body;
    && w.insts[i].epoch == w.epoch
    && Holds(w, i) && !w.slots[w.insts[i].rid].value.ended
    && (body.StdOutBody? || body.StdErrBody? || body.EndRequestBody?)
    && (body.EndRequestBody? ==> w.insts[i].peerEnded)
  }

  /** Nothing of a request follows its end record. */
  predicate EndsLast(q: seq<PeerRec>)
  {
    forall k, l :: 0 <= k < l < |q| && q[k].body.EndRequestBody? ==> q[l].inst != q[k].inst
  }

  predicate Flow(w: World)
  {
    && Core(w)
    && (forall i :: 0 <= i < |w.insts| ==> FlowOk(w, i) && SentOk(w, i))
    && (!w.dead ==> EndsLast(w.inflight) && forall k :: 0 <= k < |w.inflight| ==> QueueOk(w, k))
  }

  lemma SwapAppend(d: bytes, h: nat, l: nat, q: nat, s: bytes)
    requires h + l + q <= |d|
    ensures Swap(d + s, h, l, q) == Swap(d, h, l, q) + s
  {
    var e := d + s;
    assert e[..h] == d[..h] && e[h + l..h + l + q] == d[h + l..h + l + q] && e[h..h + l] == d[h..h + l];
    assert e[h + l + q..] == d[h + l + q..] + s;
  }

  lemma AccountAppend(inst: Inst, f: bytes, s: bytes)
    requires Account(inst, f)
    ensures Account(inst.(delivered := inst.delivered + s), f + s)
  {
    SwapAppend(inst.delivered, inst.head, inst.left, inst.queued, s);
    assert inst.taken + inst.yielded + (f + s) == inst.taken + inst.yielded + f + s;
  }

  lemma SwapNothing<T>(d: seq<T>)
    ensures Swap(d, 0, 0, 0) == d
  {}

  lemma SwapPieces(h: bytes, l: bytes, q: bytes)
    ensures Swap(h + l + q, |h|, |l|, |q|) == h + q + l
  {
    var d := h + l + q;
    assert d[..|h|] == h && d[|h| + |l|..|h| + |l| + |q|] == q && d[|h|..|h| + |l|] == l;
  }

  lemma AccountHandover(inst: Inst, head: nat, f: bytes)
    requires head <= |inst.taken| && inst.yielded == [] && inst.head == inst.left == inst.queued == 0
    requires Account(inst, f)
    ensures var left := inst.taken[head..];
            Account(inst.(taken := inst.taken[..head], head := head, left := |left|, queued := |f|), f + left)
  {
    var h, left := inst.taken[..head], inst.taken[head..];
    SwapNothing(inst.delivered);
    assert inst.taken == h + left && inst.taken + [] == inst.taken;
    SwapPieces(h, left, f);
    assert h + [] + (f + left) == h + f + left;
  }

  lemma AccountYield(inst: Inst, c: bytes, f: bytes)
    requires Account(inst, c + f)
    ensures Account(inst.(yielded := inst.yielded + c), f)
  {
    assert inst.taken + (inst.yielded + c) + f == inst.taken + inst.yielded + (c + f);
  }

  lemma AccountTake(inst: Inst, c: bytes, f: bytes)
    requires Account(inst, c + f) && inst.yielded == []
    ensures Account(inst.(taken := inst.taken + c), f)
  {
    assert inst.taken + c + [] + f == inst.taken + [] + (c + f);
  }

  // ---------- one lemma for each thing that happens ----------

  /** An instance keeps its accounts where nothing of its own changes. */
  lemma KeepOther(w: World, r: World, j: nat)
    requires Shape(w) && Shape(r) && j < |w.insts| && j < |r.insts| && |w.slots| <= |r.slots|
    requires FlowOk(w, j) && SentOk(w, j)
    requires r.insts[j] == w.insts[j] && r.epoch == w.epoch && r.dead == w.dead
    requires Holds(w, j) <==> Holds(r, j)
    requires Holds(w, j) ==> r.slots[w.insts[j].rid] == w.slots[w.insts[j].rid]
    requires Afloat(r.inflight, j) == Afloat(w.inflight, j)
    ensures FlowOk(r, j) && SentOk(r, j)
  {}

  /** And so does a record in flight. */
  lemma KeepQueued(w: World, r: World, k: nat, l: nat)
    requires Shape(w) && Shape(r) && k < |w.inflight| && l < |r.inflight| && r.inflight[l] == w.inflight[k]
    requires QueueOk(w, k) && |w.insts| <= |r.insts| && |w.slots| <= |r.slots| && r.epoch == w.epoch
    requires var i := w.inflight[k].inst;
             && r.insts[i].rid == w.insts[i].rid && r.insts[i].epoch == w.insts[i].epoch
             && (w.insts[i].peerEnded ==> r.insts[i].peerEnded)
             && Holds(r, i) && r.slots[w.insts[i].rid].value.ended == w.slots[w.insts[i].rid].value.ended
    ensures QueueOk(r, l)
  {}

  lemma FlowDeliver(w: World)
    requires Flow(w) && !w.dead && w.inflight != []
    ensures Flow(Deliver(w))
  {
    var i, r := w.inflight[0].inst, Deliver(w);
    CoreDeliver(w);
    assert QueueOk(w, 0);
    DeliverOwn(w);
    FlowDeliverOwn(w);
    forall j | 0 <= j < |r.insts| ensures FlowOk(r, j) && SentOk(r, j) {
      if j != i {
        assert FlowOk(w, j) && SentOk(w, j);
        KeepOther(w, r, j);
      }
    }
    forall k | 0 <= k < |r.inflight| ensures QueueOk(r, k) {
      assert QueueOk(w, k + 1);
      KeepQueued(w, r, k + 1, k);
    }
  }

  /** A delivery to a request that holds its slot changes this slot and this instance. */
  lemma DeliverOwn(w: World)
    requires Shape(w) && w.inflight != [] && Holds(w, w.inflight[0].inst)
    ensures var p, r := w.inflight[0], Deliver(w);
            var i := p.inst;
            var x := w.insts[i].rid;
            var q := w.slots[x].value;
            && r.owner == w.owner && r.epoch == w.epoch && r.inflight == w.inflight[1..]
            && r.slots == w.slots[x := r.slots[x]] && r.insts == w.insts[i := r.insts[i]]
            && match p.body
               case EndRequestBody(_, _) =>
                 && r.insts[i] == w.insts[i]
                 && r.slots[x] == if q.aborted then None else Some(q.(ended := true, waker := false))
               case StdOutBody(s) =>
                 if q.aborted || s == [] then r.insts[i] == w.insts[i] && r.slots[x] == w.slots[x]
                 else && r.insts[i] == w.insts[i].(delivered := w.insts[i].delivered + s)
                      && r.slots[x] == Some(q.(buf := q.buf + [s], waker := false))
               case _ => r.insts[i] == w.insts[i] && r.slots[x] == w.slots[x]
  {
    var i := w.inflight[0].inst;
    if w.inflight[0].body.StdOutBody? && w.inflight[0].body.out == [] {
      assert w.insts[i].delivered + [] == w.insts[i].delivered;
    }
  }

  /** The buffer of the request after an output record is longer by that output. */
  lemma OutputAccounts(inst: Inst, buf: seq<bytes>, s: bytes)
    requires Account(inst, Flatten(buf))
    ensures Account(inst.(delivered := inst.delivered + s), Flatten(buf + [s]))
  {
    FlattenPush(buf, s);
    AccountAppend(inst, Flatten(buf), s);
  }

  lemma FlowDeliverOwn(w: World)
    requires Flow(w) && !w.dead && w.inflight != []
    ensures Shape(Deliver(w)) && w.inflight[0].inst < |Deliver(w).insts|
    ensures FlowOk(Deliver(w), w.inflight[0].inst) && SentOk(Deliver(w), w.inflight[0].inst)
  {
    var p, r := w.inflight[0], Deliver(w);
    var i := p.inst;
    assert QueueOk(w, 0) && FlowOk(w, i) && SentOk(w, i) && SlotOk(w, w.insts[i].rid);
    FlowDeliverAccounts(w);
    SentDeliverOwn(w);
  }

  lemma FlowDeliverAccounts(w: World)
    requires Shape(w) && w.inflight != [] && Holds(w, w.inflight[0].inst) && FlowOk(w, w.inflight[0].inst)
    requires w.insts[w.inflight[0].inst].phase != Done
    ensures w.inflight[0].inst < |Deliver(w).insts| && FlowOk(Deliver(w), w.inflight[0].inst)
  {
    var p := w.inflight[0];
    var inst, q := w.insts[p.inst], w.slots[w.insts[p.inst].rid].value;
    DeliverOwn(w);
    if p.body.StdOutBody? && Live(inst) {
      OutputAccounts(inst, q.buf, p.body.out);
    }
  }

  lemma SentDeliverOwn(w: World)
    requires Shape(w) && w.inflight != [] && !w.dead && QueueOk(w, 0) && SentOk(w, w.inflight[0].inst)
    ensures w.inflight[0].inst < |Deliver(w).insts| && SentOk(Deliver(w), w.inflight[0].inst)
  {
    var p, r := w.inflight[0], Deliver(w);
    var inst := w.insts[p.inst];
    DeliverOwn(w);
    var tail := Afloat(r.inflight, p.inst);
    assert [] + tail == tail;
    if p.body.StdOutBody? {
      assert inst.delivered + (p.body.out + tail) == inst.delivered + p.body.out + tail;
    }
  }

  lemma {:induction false} FlowDeliverMany(w: World, k: nat)
    requires Flow(w) && !w.dead && k <= |w.inflight|
    ensures Flow(DeliverMany(w, k))
    decreases k
  {
    if k > 0 {
      FlowDeliver(w);
      FlowDeliverMany(Deliver(w), k - 1);
    }
  }

  lemma FlowLose(w: World)
    requires Flow(w)
    ensures Flow(Lose(w))
  {
    CoreLose(w);
    var r := Lose(w);
    forall j | 0 <= j < |r.insts| ensures FlowOk(r, j) && SentOk(r, j) {
      assert FlowOk(w, j) && SentOk(w, j);
    }
  }

  lemma FlowReconnect(w: World)
    requires Flow(w)
    ensures Flow(Reconnect(w))
  {
    CoreReconnect(w);
    var r := Reconnect(w);
    forall j | 0 <= j < |r.insts| ensures FlowOk(r, j) && SentOk(r, j) {
      assert FlowOk(w, j) && SentOk(w, j) && InstOk(w, j);
    }
  }

  lemma FlowHappen(w: World, ev: Event)
    requires Flow(w) && Possible(w, ev)
    ensures Flow(Happen(w, ev))
  {
    match ev {
      case Idle =>
      case Got(k) => FlowDeliverMany(w, k);
      case Lost => FlowLose(w);
    }
  }

  lemma FlowPrepared(w: World, ev: Event)
    requires Flow(w) && Possible(w, ev)
    ensures Flow(Prepared(w, ev))
  {
    FlowHappen(w, ev);
    if ev.Lost? {
      FlowReconnect(Happen(w, ev));
    }
  }

  lemma FlowInsert(w: World, x: nat, order: Order, o: Outcome)
    requires Flow(w) && w.pending > 0 && Vacant(w.slots, x) && x < w.max
    ensures Flow(Insert(w, x, order, o))
  {
    CoreInsert(w, x, order, o);
    var r := Insert(w, x, order, o);
    forall j | 0 <= j < |r.insts| ensures FlowOk(r, j) && SentOk(r, j) {
      if j < |w.insts| {
        assert FlowOk(w, j) && SentOk(w, j);
        KeepOther(w, r, j);
      } else {
        AfloatNone(w.inflight, j);
        SwapNothing<byte>([]);
        assert r.insts[j] == Opened(w, x, order, o);
      }
    }
    forall k | 0 <= k < |r.inflight| && !r.dead ensures QueueOk(r, k) {
      assert QueueOk(w, k);
      KeepQueued(w, r, k, k);
    }
  }

  lemma FlowPollOne(w: World, i: nat, complete: bool)
    requires Flow(w) && i < |w.insts| && Pollable(w.insts[i])
    ensures Flow(PollOne(w, i, complete))
  {
    CorePollOne(w, i, complete);
    var r := PollOne(w, i, complete);
    assert InstOk(w, i) && SentOk(w, i);
    PollOwn(w, i, complete);
    PollAccount(w, i, complete);
    PollSent(w, i, complete);
    forall j | 0 <= j < |r.insts| ensures FlowOk(r, j) && SentOk(r, j) {
      if j != i {
        assert FlowOk(w, j) && SentOk(w, j);
        KeepOther(w, r, j);
      }
    }
    PollQueue(w, i, complete);
  }

  lemma PollQueue(w: World, i: nat, complete: bool)
    requires Flow(w) && i < |w.insts| && Live(w.insts[i])
    ensures var r := PollOne(w, i, complete);
            r.inflight == w.inflight && r.dead == w.dead
            && (!r.dead ==> forall k :: 0 <= k < |r.inflight| ==> QueueOk(r, k))
  {
    var r := PollOne(w, i, complete);
    assert InstOk(w, i);
    PollOwn(w, i, complete);
    forall k | 0 <= k < |r.inflight| && !r.dead ensures QueueOk(r, k) {
      assert QueueOk(w, k);
      KeepQueued(w, r, k, k);
    }
  }

  /** Polling a body that holds its slot changes this slot and this instance; it frees only an ended request. */
  lemma PollOwn(w: World, i: nat, complete: bool)
    requires Shape(w) && i < |w.insts| && Live(w.insts[i]) && Holds(w, i)
    ensures var r := PollOne(w, i, complete);
            var x := w.insts[i].rid;
            var q := w.slots[x].value;
            var a, b := w.insts[i], r.insts[i];
            && r.owner == w.owner && r.epoch == w.epoch && r.inflight == w.inflight && r.dead == w.dead
            && r.slots == w.slots[x := r.slots[x]] && r.insts == w.insts[i := b]
            && a.rid == b.rid && a.epoch == b.epoch && a.delivered == b.delivered && a.sent == b.sent
            && a.peerEnded == b.peerEnded
            && (r.slots[x].Some? ==> r.slots[x].value.ended == q.ended && r.slots[x].value.aborted == q.aborted)
            && (r.slots[x].None? ==> q.ended)
  {}

  /** A request that is freed by its poll has been ended, so nothing of it is on its way any more. */
  lemma PollSent(w: World, i: nat, complete: bool)
    requires Flow(w) && i < |w.insts| && Live(w.insts[i])
    ensures i < |PollOne(w, i, complete).insts| && SentOk(PollOne(w, i, complete), i)
  {
    var r, x := PollOne(w, i, complete), w.insts[i].rid;
    assert InstOk(w, i) && SentOk(w, i);
    PollOwn(w, i, complete);
    if !w.dead && r.slots[x].None? {
      forall k | 0 <= k < |w.inflight| ensures w.inflight[k].inst != i {
        assert QueueOk(w, k);
      }
      AfloatNone(w.inflight, i);
      assert SlotOk(w, x);
    }
    DoneFrees(w, i, complete);
  }

  lemma DoneFrees(w: World, i: nat, complete: bool)
    requires Shape(w) && i < |w.insts| && Live(w.insts[i]) && Holds(w, i)
    ensures var r := PollOne(w, i, complete); r.insts[i].phase == Done <==> r.slots[w.insts[i].rid].None?
  {}

  lemma PollAccount(w: World, i: nat, complete: bool)
    requires Shape(w) && i < |w.insts| && Live(w.insts[i]) && Holds(w, i) && FlowOk(w, i)
    ensures var r := PollOne(w, i, complete); Shape(r) && i < |r.insts| && FlowOk(r, i)
  {
    var inst, buf := w.insts[i], w.slots[w.insts[i].rid].value.buf;
    var c := if Flatten(buf) == [] then [] else buf[0];
    var left := if Flatten(buf) == [] then [] else Flatten(buf[1..]);
    assert Flatten(buf) == c + left;
    PolledInst(w, i, complete, c, left);
    AfterPoll(w, PollOne(w, i, complete), i, c, left);
  }

  /** The instance after a poll has given out c, but for what the poll tells of the request. */
  predicate PolledAs(a: Inst, c: bytes, b: Inst)
  {
    var same := b.(heading := a.heading, waiting := a.waiting);
    && (a.phase == Returned ==> same.(phase := a.phase) == a.(yielded := a.yielded + c))
    && (a.phase == Parsing ==> same == a.(taken := a.taken + c))
  }

  /** The accounts after chunk c has been taken from the front of the buffer. */
  lemma AfterPoll(w: World, r: World, i: nat, c: bytes, left: bytes)
    requires Shape(w) && Shape(r) && i < |w.insts| && i < |r.insts| && Live(w.insts[i])
    requires var a := w.insts[i];
             && (a.phase == Parsing ==> a.yielded == [] && a.head == a.left == a.queued == 0)
             && Account(a, c + left)
    requires var a, b := w.insts[i], r.insts[i];
             && PolledAs(a, c, b)
             && b.phase in {a.phase, Done}
             && (b.phase == Done <==> !Holds(r, i)) && (b.phase == Done ==> left == [])
             && (Holds(r, i) ==> Flatten(r.slots[a.rid].value.buf) == left)
    ensures FlowOk(r, i)
  {
    var a := w.insts[i];
    if a.phase == Returned {
      AccountYield(a, c, left);
    } else {
      AccountTake(a, c, left);
    }
    assert Account(r.insts[i], left);
  }

  /** The instance after a poll, spelled out. */
  lemma PolledInst(w: World, i: nat, complete: bool, c: bytes, left: bytes)
    requires Shape(w) && i < |w.insts| && Live(w.insts[i]) && Holds(w, i)
    requires var f := Flatten(w.slots[w.insts[i].rid].value.buf);
             if f == [] then c == [] && left == []
             else c == w.slots[w.insts[i].rid].value.buf[0]
                  && left == Flatten(w.slots[w.insts[i].rid].value.buf[1..])
    ensures var a, r := w.insts[i], PollOne(w, i, complete);
            var b := r.insts[i];
            && PolledAs(a, c, b)
            && b.phase in {a.phase, Done}
            && (b.phase == Done <==> !Holds(r, i)) && (b.phase == Done ==> left == [])
            && (Holds(r, i) ==> Flatten(r.slots[a.rid].value.buf) == left)
  {
    var a := w.insts[i];
    assert a.yielded + [] == a.yielded && a.taken + [] == a.taken;
  }

  /** An instance moves on in ways that do not touch the accounts, and its slot keeps its buffer and end flag. */
  lemma FlowFrame(w: World, r: World, i: nat)
    requires Flow(w) && Core(r) && i < |w.insts| == |r.insts| && |w.slots| == |r.slots| && Holds(w, i)
    requires r.owner == w.owner && r.epoch == w.epoch && r.dead == w.dead && r.inflight == w.inflight
    requires forall j :: 0 <= j < |w.insts| && j != i ==> r.insts[j] == w.insts[j]
    requires var a, b := w.insts[i], r.insts[i];
             a.rid == b.rid && a.epoch == b.epoch && a.delivered == b.delivered && a.sent == b.sent
             && a.peerEnded == b.peerEnded
    requires forall x :: 0 <= x < |w.slots| && x != w.insts[i].rid ==> r.slots[x] == w.slots[x]
    requires var a, b := w.slots[w.insts[i].rid], r.slots[w.insts[i].rid];
             && (a.Some? <==> b.Some?)
             && (a.Some? ==> a.value.ended == b.value.ended && (a.value.aborted ==> b.value.aborted))
    requires FlowOk(r, i) && r.insts[i].phase != Done
    ensures Flow(r)
  {
    assert SentOk(w, i);
    SentFrame(w, r, i);
    forall j | 0 <= j < |r.insts| && j != i ensures FlowOk(r, j) && SentOk(r, j) {
      assert FlowOk(w, j) && SentOk(w, j);
      KeepOther(w, r, j);
    }
    QueueFrame(w, r, i);
  }

  lemma QueueFrame(w: World, r: World, i: nat)
    requires Flow(w) && Shape(r) && i < |w.insts| == |r.insts| && |w.slots| == |r.slots| && Holds(w, i)
    requires r.owner == w.owner && r.epoch == w.epoch && r.dead == w.dead && r.inflight == w.inflight
    requires forall j :: 0 <= j < |w.insts| && j != i ==> r.insts[j] == w.insts[j]
    requires var a, b := w.insts[i], r.insts[i];
             a.rid == b.rid && a.epoch == b.epoch && a.peerEnded == b.peerEnded
    requires forall x :: 0 <= x < |w.slots| && x != w.insts[i].rid ==> r.slots[x] == w.slots[x]
    requires var a, b := w.slots[w.insts[i].rid], r.slots[w.insts[i].rid];
             (a.Some? <==> b.Some?) && (a.Some? ==> a.value.ended == b.value.ended)
    ensures !r.dead ==> forall k :: 0 <= k < |r.inflight| ==> QueueOk(r, k)
  {
    forall k | 0 <= k < |r.inflight| && !r.dead ensures QueueOk(r, k) {
      assert QueueOk(w, k);
      KeepQueued(w, r, k, k);
    }
  }

  lemma SentFrame(w: World, r: World, i: nat)
    requires Shape(w) && Shape(r) && i < |w.insts| && i < |r.insts| && |w.slots| == |r.slots| && Holds(w, i)
    requires r.owner == w.owner && r.epoch == w.epoch && r.dead == w.dead && r.inflight == w.inflight
    requires var a, b := w.insts[i], r.insts[i];
             a.rid == b.rid && a.epoch == b.epoch && a.delivered == b.delivered && a.sent == b.sent
             && a.peerEnded == b.peerEnded && b.phase != Done
    requires var a, b := w.slots[w.insts[i].rid].value, r.slots[w.insts[i].rid];
             b.Some? && a.ended == b.value.ended && (a.aborted ==> b.value.aborted)
    requires SentOk(w, i)
    ensures SentOk(r, i)
  {}

  lemma FlowHandover(w: World, i: nat, head: nat)
    requires Flow(w) && Enabled(w, Step.Handover(i, head))
    ensures Flow(Take(w, Step.Handover(i, head)))
  {
    assert InstOk(w, i);
    CoreHandover(w, i, head);
    HandoverOwn(w, i, head);
    FlowHandedOver(w, Take(w, Step.Handover(i, head)), i, head);
  }

  lemma FlowHandedOver(w: World, r: World, i: nat, head: nat)
    requires Flow(w) && Core(r) && i < |w.insts| == |r.insts| && Holds(w, i)
    requires w.insts[i].phase == Parsing && head <= |w.insts[i].taken|
    requires r == w.(slots := r.slots, insts := w.insts[i := r.insts[i]])
    requires var a, q, left := w.insts[i], w.slots[w.insts[i].rid].value, w.insts[i].taken[head..];
             && r.insts[i] == a.(phase := Returned, taken := a.taken[..head],
                                 head := head, left := |left|, queued := |Flatten(q.buf)|)
             && r.slots == w.slots[a.rid := Some(if left == [] then q else q.(buf := q.buf + [left]))]
    ensures Flow(r)
  {
    HandoverAccounts(w, r, i, head);
    FlowFrame(w, r, i);
  }

  lemma HandoverAccounts(w: World, r: World, i: nat, head: nat)
    requires Shape(w) && Shape(r) && i < |w.insts| == |r.insts| && Holds(w, i) && Holds(r, i) && FlowOk(w, i)
    requires w.insts[i].phase == Parsing && head <= |w.insts[i].taken|
    requires var a, q, left := w.insts[i], w.slots[w.insts[i].rid].value, w.insts[i].taken[head..];
             && r.insts[i] == a.(phase := Returned, taken := a.taken[..head],
                                 head := head, left := |left|, queued := |Flatten(q.buf)|)
             && r.slots[a.rid] == Some(if left == [] then q else q.(buf := q.buf + [left]))
    ensures FlowOk(r, i)
  {
    var inst := w.insts[i];
    var f, left := Flatten(w.slots[inst.rid].value.buf), inst.taken[head..];
    AccountHandover(inst, head, f);
    FlattenPush(w.slots[inst.rid].value.buf, left);
    assert left == [] ==> f + left == f;
  }

  /** What a record from the peer changes: its own request's account of what was sent, and the queue. */
  lemma PeerKeeps(w: World, i: nat, body: Body)
    requires Shape(w) && Enabled(w, Step.Peer(i, body))
    ensures var r := Take(w, Step.Peer(i, body));
            && r == w.(insts := r.insts, inflight := w.inflight + [PeerRec(i, body)]) && |r.insts| == |w.insts|
            && (forall j :: 0 <= j < |w.insts| && j != i ==> r.insts[j] == w.insts[j])
            && r.insts[i] == w.insts[i].(
                 sent := w.insts[i].sent + (if body.StdOutBody? then body.out else []),
                 peerEnded := body.EndRequestBody?)
  {
    assert w.insts[i].sent + [] == w.insts[i].sent;
  }

  lemma FlowPeer(w: World, i: nat, body: Body)
    requires Flow(w) && Enabled(w, Step.Peer(i, body))
    ensures Flow(Take(w, Step.Peer(i, body)))
  {
    var r := Take(w, Step.Peer(i, body));
    CoreStep(w, Step.Peer(i, body));
    PeerKeeps(w, i, body);
    forall j | 0 <= j < |r.insts| ensures FlowOk(r, j) && SentOk(r, j) {
      assert FlowOk(w, j) && SentOk(w, j);
      AfloatPush(w.inflight, PeerRec(i, body), j);
      if j != i {
        assert Afloat(w.inflight, j) + [] == Afloat(w.inflight, j);
        KeepOther(w, r, j);
      } else {
        FlowSame(w, r, i);
        assert SlotOk(w, w.insts[i].rid);
        SentPeer(w, r, i, body);
      }
    }
    QueuePeer(w, r, i, body);
  }

  lemma SentPeer(w: World, r: World, i: nat, body: Body)
    requires Shape(w) && Shape(r) && i < |w.insts| && SentOk(w, i) && !w.insts[i].peerEnded
    requires w.insts[i].phase != Done
    requires r == w.(insts := r.insts, inflight := w.inflight + [PeerRec(i, body)]) && |r.insts| == |w.insts|
    requires r.insts[i] == w.insts[i].(sent := w.insts[i].sent + (if body.StdOutBody? then body.out else []),
                                       peerEnded := body.EndRequestBody?)
    ensures SentOk(r, i)
  {
    var s := if body.StdOutBody? then body.out else [];
    AfloatPush(w.inflight, PeerRec(i, body), i);
    assert w.insts[i].delivered + (Afloat(w.inflight, i) + s) == w.insts[i].delivered + Afloat(w.inflight, i) + s;
  }

  lemma QueuePeer(w: World, r: World, i: nat, body: Body)
    requires Flow(w) && Shape(r) && Enabled(w, Step.Peer(i, body))
    requires r == w.(insts := r.insts, inflight := w.inflight + [PeerRec(i, body)]) && |r.insts| == |w.insts|
    requires forall j :: 0 <= j < |w.insts| && j != i ==> r.insts[j] == w.insts[j]
    requires r.insts[i] == w.insts[i].(sent := r.insts[i].sent, peerEnded := body.EndRequestBody?)
    ensures EndsLast(r.inflight) && forall k :: 0 <= k < |r.inflight| ==> QueueOk(r, k)
  {
    assert SentOk(w, i);
    forall k | 0 <= k < |r.inflight| ensures QueueOk(r, k) {
      if k < |w.inflight| {
        assert QueueOk(w, k);
        KeepQueued(w, r, k, k);
      }
    }
    forall k, l | 0 <= k < l < |r.inflight| && r.inflight[k].body.EndRequestBody?
      ensures r.inflight[l].inst != r.inflight[k].inst
    {
      assert QueueOk(w, k);
    }
  }

  lemma FlowStep(w: World, s: Step)
    requires Flow(w) && Enabled(w, s)
    ensures Flow(Take(w, s))
  {
    match s {
      case Acquire => CoreStep(w, s); FlowCounters(w, Take(w, s));
      case GiveUp => FlowLose(w); CoreStep(w, s); FlowCounters(Lose(w), Take(w, s));
      case Start(ev, x, order, o) =>
        FlowPrepared(w, ev);
        EventFrame(w, ev);
        FlowInsert(Prepared(w, ev), x, order, o);
      case Poll(i, ev, complete) =>
        FlowHappen(w, ev);
        SameInst(w, ev, i);
        FlowPollOne(Happen(w, ev), i, complete);
      case Handover(i, head) => FlowHandover(w, i, head);
      case Peer(i, body) => FlowPeer(w, i, body);
      case SendChunk(i, _, _) => CoreStep(w, s); FlowSend(w, s, i);
      case SendEnd(i, _) => CoreStep(w, s); FlowSend(w, s, i);
      case Drop(i, _) => CoreStep(w, s); FlowDrop(w, s, i);
    }
  }

  lemma FlowSend(w: World, s: Step, i: nat)
    requires Flow(w) && Enabled(w, s) && Core(Take(w, s))
    requires (s.SendChunk? || s.SendEnd?) && i == s.i
    ensures Flow(Take(w, s))
  {
    var r := Take(w, s);
    assert FlowOk(w, i) && InstOk(w, i);
    SendKeeps(w, s, i);
    FlowSame(w, r, i);
    FlowFrame(w, r, i);
  }

  /** Sending changes of the client only the sender's own record and the wire. */
  lemma SendKeeps(w: World, s: Step, i: nat)
    requires Shape(w) && Enabled(w, s) && (s.SendChunk? || s.SendEnd?) && i == s.i
    ensures var r := Take(w, s);
            && r == w.(insts := r.insts, wire := r.wire, jammed := r.jammed, torn := r.torn) && |r.insts| == |w.insts|
            && (forall j :: 0 <= j < |w.insts| && j != i ==> r.insts[j] == w.insts[j])
            && r.insts[i] == w.insts[i].(input := r.insts[i].input, sending := r.insts[i].sending,
                                         partial := r.insts[i].partial)
  {
    match s {
      case SendChunk(_, _, _) =>
      case SendEnd(_, _) =>
      case _ =>
    }
  }

  lemma FlowSame(w: World, r: World, i: nat)
    requires Shape(w) && Shape(r) && i < |w.insts| == |r.insts| && r.slots == w.slots && r.owner == w.owner
    requires r.insts[i] == w.insts[i].(input := r.insts[i].input, sending := r.insts[i].sending,
                                       partial := r.insts[i].partial, sent := r.insts[i].sent,
                                       peerEnded := r.insts[i].peerEnded)
    requires FlowOk(w, i)
    ensures FlowOk(r, i)
  {}

  lemma FlowDrop(w: World, s: Step, i: nat)
    requires Flow(w) && Enabled(w, s) && Core(Take(w, s)) && s.Drop? && i == s.i
    ensures Flow(Take(w, s))
  {
    assert FlowOk(w, i) && InstOk(w, i);
    FlowFrame(w, Take(w, s), i);
  }

  lemma FlowCounters(w: World, r: World)
    requires Flow(w) && Core(r) && r == w.(permits := r.permits, pending := r.pending)
    ensures Flow(r)
  {
    forall j | 0 <= j < |r.insts| ensures FlowOk(r, j) && SentOk(r, j) {
      assert FlowOk(w, j) && SentOk(w, j);
    }
    forall k | 0 <= k < |r.inflight| && !r.dead ensures QueueOk(r, k) {
      assert QueueOk(w, k);
    }
  }
}
