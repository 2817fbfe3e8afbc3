/**
 * The client of one connection as a transition system. A step is one critical section under the connection's
 * mutex, or a step of the semaphore or of the peer. Every request ever begun has an instance, which records what
 * was sent, distributed and yielded for it; the slab and what happens to it are those of the module Requests.
 */
module Client {
  import opened Octets
  import opened Records
  import opened Framing
  import opened Requests
  import opened Connection
  import opened Codec

  /**
   * Rejected: begun and aborted in the middle of its parameters, no body exists. Unopened: writing its opening failed,
   * no body exists either. Parsing: the response header is being read. Returned: the body is in the caller's hands.
   * Done: the body has ended. Dropped: it was dropped.
   */
  datatype Phase = Rejected | Unopened | Parsing | Returned | Done | Dropped

  /** The sender of the request body: still running, or how it stopped; Broken: a write failed, or it was given up. */
  datatype Sending = Open | Ended | Aborted | Broken

  /** The response header: still being read, complete, or cut off by the end of the response. */
  datatype Heading = Reading | Parsed | CutOff

  datatype Inst = Inst(
    rid: nat, epoch: nat, phase: Phase,
    heading: Heading,
    waiting: bool,          // the last poll of the body found nothing and has to be woken
    start: nat,             // where on the wire its begin record is
    params: bytes, announced: nat, input: seq<bytes>, sending: Sending,
    partial: seq<Rec>,      // the whole records of the write that failed
    sent: bytes,            // output the peer has sent for this request
    peerEnded: bool,        // the peer has sent the end record
    delivered: bytes,       // output distributed to this request
    taken: bytes,           // output that went into the response header
    yielded: bytes,         // output yielded as body
    head: nat, left: nat, queued: nat)
    // the handover: bytes of the header, bytes left over behind it, and bytes that were queued by then

  /** A record, or a piece of one, on its way from the peer. */
  datatype PeerRec = PeerRec(inst: nat, body: Body)

  /** A record written to the peer. */
  datatype SentRec = SentRec(inst: nat, rec: Rec)

  /** On the wire are whole records, and behind them the torn one after which every write fails. */
  datatype World = World(
    max: nat, permits: nat, pending: nat,
    slots: Slab, owner: seq<nat>, insts: seq<Inst>,
    epoch: nat, dead: bool, inflight: seq<PeerRec>, wire: seq<SentRec>, jammed: bool, torn: bytes)

  function Init(max: nat): World
  {
    World(max, max, 0, [], [], [], 0, false, [], [], false, [])
  }

  predicate Shape(w: World)
  {
    && |w.owner| == |w.slots| <= w.max < 0x1_0000
    && (forall i :: 0 <= i < |w.insts| ==> w.insts[i].rid < |w.slots|)
    && (forall x :: 0 <= x < |w.slots| && w.slots[x].Some? ==> w.owner[x] < |w.insts|)
    && (forall k :: 0 <= k < |w.inflight| ==> w.inflight[k].inst < |w.insts|)
  }

  /** The request ID of instance i on the wire. */
  function IdOf(w: World, i: nat): u16
    requires Shape(w) && i < |w.insts|
  {
    w.insts[i].rid + 1
  }

  /** Instance i has a slot of its own. */
  predicate Holds(w: World, i: nat)
    requires Shape(w) && i < |w.insts|
  {
    var x := w.insts[i].rid;
    w.slots[x].Some? && w.owner[x] == i
  }

  // ---------- the connection ----------

  /** Output bytes count for whichever request really owns the slot they are pushed to. */
  function Credit(w: World, x: nat, body: Body): seq<Inst>
    requires Shape(w) && x < |w.slots|
  {
    if w.slots[x].Some? && !w.slots[x].value.aborted && body.StdOutBody? then
      var j := w.owner[x];
      w.insts[j := w.insts[j].(delivered := w.insts[j].delivered + body.out)]
    else w.insts
  }

  /** The first record in flight is parsed and distributed. */
  function Deliver(w: World): (r: World)
    requires Shape(w) && w.inflight != []
    ensures Shape(r) && |r.inflight| == |w.inflight| - 1 && r.dead == w.dead
  {
    var p := w.inflight[0];
    var x := w.insts[p.inst].rid;
    var slots := Dispatch(w.slots, x + 1, p.body);
    var insts := Credit(w, x, p.body);
    var freed := if w.slots[x].Some? && slots[x].None? then 1 else 0;
    w.(slots := slots, insts := insts, permits := w.permits + freed, inflight := w.inflight[1..])
  }

  function DeliverMany(w: World, k: nat): (r: World)
    requires Shape(w) && k <= |w.inflight|
    ensures Shape(r) && r.dead == w.dead
    decreases k
  {
    if k == 0 then w else DeliverMany(Deliver(w), k - 1)
  }

  /** The connection is reported lost, and everybody notified. */
  function Lose(w: World): (r: World)
    requires Shape(w)
    ensures Shape(r)
  {
    w.(slots := NotifyAll(w.slots), dead := true)
  }

  /** A new transport with a new reader: what was in flight is gone. */
  function Reconnect(w: World): (r: World)
    requires Shape(w)
    ensures Shape(r)
  {
    w.(epoch := w.epoch + 1, dead := false, inflight := [], wire := [], jammed := false, torn := [])
  }

  /** What polling the connection finds: nothing, the next k records, or the end of it. */
  datatype Event = Idle | Got(k: nat) | Lost

  /** A connection once reported dead stays so. */
  predicate Possible(w: World, ev: Event)
  {
    match ev
    case Idle => !w.dead
    case Got(k) => !w.dead && k <= |w.inflight|
    case Lost => true
  }

  function Happen(w: World, ev: Event): (r: World)
    requires Shape(w) && Possible(w, ev)
    ensures Shape(r)
  {
    match ev
    case Idle => w
    case Got(k) => DeliverMany(w, k)
    case Lost => Lose(w)
  }

  /** The connection as a new request finds it: polled, and replaced if it was lost. */
  function Prepared(w: World, ev: Event): (r: World)
    requires Shape(w) && Possible(w, ev)
    ensures Shape(r)
  {
    if ev.Lost? then Reconnect(Happen(w, ev)) else Happen(w, ev)
  }

  // ---------- writing ----------

  /** A write succeeds, or it fails after some whole records and a part of the next. */
  datatype Outcome = Written | Torn(whole: nat, part: bytes)

  /** Once a write has failed nothing can be written any more. */
  predicate Writable(w: World, recs: seq<Rec>, o: Outcome)
    requires Sized(recs)
  {
    match o
    case Written => !w.jammed
    case Torn(n, part) =>
      if w.jammed then n == 0 && part == [] else n < |recs| && part < RecBytes(recs[n])
  }

  /** The records that are on the wire afterwards. */
  function Landed(recs: seq<Rec>, o: Outcome): seq<Rec>
  {
    if o.Torn? && o.whole <= |recs| then recs[..o.whole] else recs
  }

  function Tagged(i: nat, recs: seq<Rec>): (r: seq<SentRec>)
    ensures |r| == |recs|
  {
    seq(|recs|, k requires 0 <= k < |recs| => SentRec(i, recs[k]))
  }

  function Write(w: World, i: nat, recs: seq<Rec>, o: Outcome): (r: World)
    requires Shape(w)
    ensures Shape(r)
  {
    w.(wire := w.wire + Tagged(i, Landed(recs, o)),
       jammed := w.jammed || o.Torn?,
       torn := if o.Torn? && !w.jammed then o.part else w.torn)
  }

  // ---------- requests ----------

  /** A slab takes a vacant entry if there is one and grows only if there is none. */
  predicate Vacant(slots: Slab, x: nat)
  {
    if x < |slots| then slots[x].None? else x == |slots| && forall y :: 0 <= y < |slots| ==> slots[y].Some?
  }

  const RESPONDER: u16 := 1
  const KEEP_CONN: byte := 1

  /** The records of the first critical section of a request. */
  function OpeningRecs(id: u16, params: bytes, hasBody: bool, rejected: bool): (r: seq<Rec>)
    ensures Sized(r)
  {
    [BeginRec(id, RESPONDER, KEEP_CONN)]
    + (if rejected then FullRecs(Params, id, params) + [AbortRec(id)]
       else StreamRecs(Params, id, params) + if hasBody then [] else [Rec(StdIn, id, [])])
  }

  /** What a request is sent as: parameters, the announced length of its body, and whether its header is refused. */
  datatype Order = Order(params: bytes, len: Option<nat>, rejected: bool)

  const PLAIN := Order([], None, false)

  function OrderRecs(id: u16, order: Order): (r: seq<Rec>)
    ensures Sized(r)
  {
    OpeningRecs(id, order.params, order.len.Some?, order.rejected)
  }

  function Opened(w: World, x: nat, order: Order, o: Outcome): Inst
    requires x + 1 < 0x1_0000
  {
    Inst(x, w.epoch, if o.Torn? then Unopened else if order.rejected then Rejected else Parsing, Reading, false,
         |w.wire|, order.params, if order.len.Some? then order.len.value else 0, [],
         if o.Torn? then Broken else if order.rejected then Aborted else if order.len.Some? then Open else Ended,
         if o.Torn? then Landed(OrderRecs(x + 1, order), o) else [],
         [], false, [], [], [], 0, 0, 0)
  }

  function Insert(w: World, x: nat, order: Order, o: Outcome): (r: World)
    requires Shape(w) && w.pending > 0 && Vacant(w.slots, x) && x < w.max
    ensures Shape(r)
  {
    var i := |w.insts|;
    var w' := Write(w, i, OrderRecs(x + 1, order), o);
    w'.(pending := w.pending - 1,
        slots := if x < |w.slots| then w.slots[x := Some(FRESH)] else w.slots + [Some(FRESH)],
        owner := if x < |w.slots| then w.owner[x := i] else w.owner + [i],
        insts := w.insts + [Opened(w, x, order, o)])
  }

  /** What the poll of a body says about the header, complete telling whether it ends within the chunk that came. */
  function HeadingAfter(answer: Polled, complete: bool): Heading
  {
    match answer
    case Chunk(_) => if complete then Parsed else Reading
    case Finished => CutOff
    case Waiting => Reading
  }

  function PollOne(w: World, i: nat, complete: bool): (r: World)
    requires Shape(w) && i < |w.insts|
    ensures Shape(r)
  {
    var inst := w.insts[i];
    var p := PollSlot(w.slots, inst.rid, inst.phase == Returned);
    var c := match p.answer case Chunk(c) => c case _ => [];
    var inst' := inst.(
      phase := if p.done then Done else inst.phase,
      heading := if inst.phase == Returned then inst.heading else HeadingAfter(p.answer, complete),
      waiting := p.answer == Waiting,
      taken := if inst.phase == Returned then inst.taken else inst.taken + c,
      yielded := if inst.phase == Returned then inst.yielded + c else inst.yielded);
    var freed := if w.slots[inst.rid].Some? && p.slots[inst.rid].None? then 1 else 0;
    w.(slots := p.slots, insts := w.insts[i := inst'], permits := w.permits + freed)
  }

  /** The records of a piece of the request body, and those of its end or of an abort. */
  function ChunkOf(w: World, i: nat, data: bytes): (r: seq<Rec>)
    requires Shape(w) && i < |w.insts|
    ensures Sized(r)
  {
    FlushRecs(StdIn, IdOf(w, i), data)
  }

  function EndOf(w: World, i: nat): (r: seq<Rec>)
    requires Shape(w) && i < |w.insts|
    ensures Sized(r) && |r| == 1
  {
    if Missing(w.insts[i].announced, |Flatten(w.insts[i].input)|) > 0 then [AbortRec(IdOf(w, i))]
    else [Rec(StdIn, IdOf(w, i), [])]
  }

  /** Instance i writes: if that fails, its sender is broken. */
  function Append(w: World, i: nat, recs: seq<Rec>, o: Outcome, inst: Inst): (r: World)
    requires Shape(w) && i < |w.insts| && inst.rid == w.insts[i].rid
    ensures Shape(r)
  {
    var inst' := if o.Torn? then w.insts[i].(sending := Broken, partial := Landed(recs, o)) else inst;
    Write(w, i, recs, o).(insts := w.insts[i := inst'])
  }

  datatype Step =
    | Acquire
    | GiveUp
    | Start(ev: Event, x: nat, order: Order, o: Outcome)
    | SendChunk(i: nat, data: bytes, o: Outcome)
    | SendEnd(i: nat, o: Outcome)
    | Peer(i: nat, body: Body)
    | Poll(i: nat, ev: Event, complete: bool)
    | Handover(i: nat, head: nat)
    | Drop(i: nat, locked: bool)

  /** A body lives while it is being parsed or is in the caller's hands. */
  predicate Live(inst: Inst)
  {
    inst.phase == Parsing || inst.phase == Returned
  }

  /** The request is still being forwarded: its body is being sent, or has been. Any other sender makes that fail. */
  predicate Forwarded(inst: Inst)
  {
    inst.sending == Open || inst.sending == Ended
  }

  /** The body can be polled: for the header as long as that is being read, by the caller once it has the body. */
  predicate Pollable(inst: Inst)
  {
    match inst.phase
    case Parsing => inst.heading == Reading && Forwarded(inst)
    case Returned => inst.sending == Ended
    case _ => false
  }

  /**
   * When a step can be taken. The caller gets the body only after the request body has been sent; if that fails the
   * body can only be dropped. Something is left over by the header parser only behind the line end that closes the
   * header.
   */
  predicate Enabled(w: World, s: Step)
    requires Shape(w)
  {
    match s
    case Acquire => w.permits > 0
    case GiveUp => w.pending > 0
    case Start(ev, x, order, o) =>
      && w.pending > 0 && Possible(w, ev)
      && Vacant(Happen(w, ev).slots, x) && x < w.max
      && (order.len.Some? ==> order.len.value < USIZE)
      && Writable(Prepared(w, ev), OrderRecs(x + 1, order), o)
    case SendChunk(i, data, o) =>
      i < |w.insts| && w.insts[i].sending == Open && data != [] && Writable(w, ChunkOf(w, i, data), o)
    case SendEnd(i, o) => i < |w.insts| && w.insts[i].sending == Open && Writable(w, EndOf(w, i), o)
    case Peer(i, body) =>
      && i < |w.insts| && !w.dead && w.insts[i].epoch == w.epoch && !w.insts[i].peerEnded
      && (body.StdOutBody? || body.StdErrBody? || body.EndRequestBody?)
    case Poll(i, ev, _) => i < |w.insts| && Pollable(w.insts[i]) && Possible(w, ev)
    case Handover(i, head) =>
      && i < |w.insts| && w.insts[i].phase == Parsing && Forwarded(w.insts[i]) && w.insts[i].heading != Reading
      && head <= |w.insts[i].taken|
      && (head < |w.insts[i].taken| ==>
            head >= 1 && w.insts[i].heading == Parsed && w.slots[w.insts[i].rid].Some?)
    case Drop(i, locked) => i < |w.insts| && Live(w.insts[i])
  }

  function Take(w: World, s: Step): (r: World)
    requires Shape(w) && Enabled(w, s)
    ensures Shape(r)
  {
    match s
    case Acquire => w.(permits := w.permits - 1, pending := w.pending + 1)
    case GiveUp => var l := Lose(w); l.(permits := l.permits + 1, pending := l.pending - 1)
    case Start(ev, x, order, o) =>
      EventFrame(w, ev);
      Insert(Prepared(w, ev), x, order, o)
    case SendChunk(i, data, o) =>
      var inst := w.insts[i];
      Append(w, i, ChunkOf(w, i, data), o, inst.(input := inst.input + [data]))
    case SendEnd(i, o) =>
      var inst := w.insts[i];
      var short := Missing(inst.announced, |Flatten(inst.input)|) > 0;
      Append(w, i, EndOf(w, i), o, inst.(sending := if short then Aborted else Ended))
    case Peer(i, body) =>
      var inst := w.insts[i];
      var inst' := match body
        case StdOutBody(s) => inst.(sent := inst.sent + s)
        case EndRequestBody(_, _) => inst.(peerEnded := true)
        case _ => inst;
      w.(insts := w.insts[i := inst'], inflight := w.inflight + [PeerRec(i, body)])
    case Poll(i, ev, complete) =>
      EventFrame(w, ev);
      PollOne(Happen(w, ev), i, complete)
    case Handover(i, head) =>
      var inst := w.insts[i];
      var left := inst.taken[head..];
      var queued := match w.slots[inst.rid] case None => [] case Some(q) => Flatten(q.buf);
      w.(slots := PushBack(w.slots, inst.rid, left),
         insts := w.insts[i := inst.(phase := Returned, taken := inst.taken[..head],
                                     head := head, left := |left|, queued := |queued|)])
    case Drop(i, locked) =>
      var inst := w.insts[i];
      var sending := if inst.sending == Open then Broken else inst.sending;
      w.(slots := if locked then Abort(w.slots, inst.rid) else w.slots,
         insts := w.insts[i := inst.(phase := Dropped, sending := sending)])
  }

  /** Polling the connection changes neither who exists nor the bounds. */
  lemma EventFrame(w: World, ev: Event)
    requires Shape(w) && Possible(w, ev)
    ensures var h := Happen(w, ev);
            h.max == w.max && h.pending == w.pending && |h.insts| == |w.insts| && h.epoch == w.epoch
            && h.dead == (w.dead || ev.Lost?)
  {
    if ev.Got? {
      FrameMany(w, ev.k);
    }
  }

  lemma {:induction false} FrameMany(w: World, k: nat)
    requires Shape(w) && k <= |w.inflight|
    ensures var h := DeliverMany(w, k);
            h.max == w.max && h.pending == w.pending && |h.insts| == |w.insts| && h.epoch == w.epoch
    decreases k
  {
    if k > 0 {
      FrameMany(Deliver(w), k - 1);
    }
  }

  /** Doing things one after the other. */
  function Fold<S, A>(f: (S, A) -> S, start: S, acts: seq<A>): S
  {
    if acts == [] then start else f(Fold(f, start, acts[..|acts| - 1]), acts[|acts| - 1])
  }

  lemma {:induction false} FoldTwice<S, A>(f: (S, A) -> S, start: S, a: seq<A>, b: seq<A>)
    ensures Fold(f, start, a + b) == Fold(f, Fold(f, start, a), b)
  {
    if b == [] {
      assert a + b == a;
    } else {
      var n := |b| - 1;
      assert (a + b)[..|a| + n] == a + b[..n];
      FoldTwice(f, start, a, b[..n]);
    }
  }

  function Next(r: Option<World>, s: Step): (n: Option<World>)
    ensures n.Some? ==> Shape(n.value)
  {
    if r.Some? && Shape(r.value) && Enabled(r.value, s) then Some(Take(r.value, s)) else None
  }

  /** The state after a list of steps, None if some step could not be taken. */
  function Exec(w: World, steps: seq<Step>): (r: Option<World>)
    requires Shape(w)
    ensures r.Some? ==> Shape(r.value)
  {
    Fold(Next, Some(w), steps)
  }

  /** A run of a connection for at most max requests. */
  function After(max: nat, steps: seq<Step>): (r: Option<World>)
    requires max < 0x1_0000
    ensures r.Some? ==> Shape(r.value)
  {
    Exec(Init(max), steps)
  }

  /** The last step of a run. */
  lemma ExecBack(w: World, steps: seq<Step>) returns (v: World)
    requires Shape(w) && steps != [] && Exec(w, steps).Some?
    ensures Exec(w, steps[..|steps| - 1]) == Some(v) && Shape(v) && Enabled(v, steps[|steps| - 1])
    ensures Exec(w, steps) == Some(Take(v, steps[|steps| - 1]))
  {
    v := Exec(w, steps[..|steps| - 1]).value;
  }

  lemma ExecTwice(w: World, a: seq<Step>, b: seq<Step>)
    requires Shape(w) && Exec(w, a).Some?
    ensures Exec(w, a + b) == Exec(Exec(w, a).value, b)
  {
    FoldTwice(Next, Some(w), a, b);
  }

  lemma ExecOne(w: World, steps: seq<Step>, s: Step)
    requires Shape(w) && Exec(w, steps).Some? && Enabled(Exec(w, steps).value, s)
    ensures Exec(w, steps + [s]) == Some(Take(Exec(w, steps).value, s))
  {
    assert (steps + [s])[..|steps|] == steps;
  }

  lemma ExecFirst(w: World, s: Step, r: World, steps: seq<Step>)
    requires Shape(w) && Enabled(w, s) && r == Take(w, s)
    ensures Exec(w, [s] + steps) == Exec(r, steps)
  {
    ExecOne(w, [], s);
    assert [] + [s] == [s];
    ExecTwice(w, [s], steps);
  }
}
