/**
 * The connection in bytes, as it runs: moves of the client and of the peer on a state and its link, each of which is
 * some steps of the transition system.
 */
module Moves {
  import opened Octets
  import opened Records
  import opened Reader
  import opened Framing
  import opened Codec
  import opened Requests
  import opened Connection
  import opened Forwarding
  import opened Client
  import opened Ownership
  import opened Delivery
  import opened Senders
  import opened Runs
  import opened Link
  import EndToEnd

  datatype State = State(w: World, l: Link)

  /** A new connection carries nothing. */
  function Initial(max: nat): State
  {
    State(Init(max), NEW_LINK)
  }

  /**
   * PeerSends: the peer writes a record. PollBody: a body is polled, and with it the connection, where the socket says
   * ev. Begin: a request begins, after polling the connection likewise; Refuse: it gives up instead. Local: what does
   * not touch the reading side, a step of the semaphore, a sender, the handover, or dropping a body.
   */
  datatype Move =
    | PeerSends(m: Message)
    | PollBody(i: nat, ev: SocketEvent, complete: bool)
    | Begin(ev: SocketEvent, x: nat, order: Order, o: Outcome)
    | Refuse(ev: SocketEvent)
    | Local(s: Step)

  predicate IsLocal(s: Step)
  {
    s.Acquire? || s.SendChunk? || s.SendEnd? || s.Handover? || s.Drop?
  }

  /** The connection is polled, and then the step s taken. A panic ends everything. */
  function PollThen(a: State, ev: SocketEvent, s: Step): Option<World>
    requires Shape(a.w) && Owing(a.l.saved)
  {
    if !Offers(a.l, ev) || PollOf(a.w, a.l, ev).state == Crashed then None
    else Next(Exec(a.w, PeerSteps(Found(a.l, ev).recs)), s)
  }

  function OnLink(r: Option<World>, l: Link): Option<State>
  {
    match r case None => None case Some(w) => Some(State(w, l))
  }

  /** A request begins on the connection as the event e leaves it; a lost one has been replaced. */
  function BeginOn(a: State, ev: SocketEvent, e: Event, x: nat, order: Order, o: Outcome): Option<State>
    requires Shape(a.w) && Owing(a.l.saved)
  {
    OnLink(PollThen(a, ev, Step.Start(e, x, order, o)), if e.Lost? then NEW_LINK else LinkAfter(a.w, a.l, ev))
  }

  /** The state after a move, None if it is impossible. */
  function Do(a: State, mv: Move): Option<State>
  {
    if !Shape(a.w) || !Owing(a.l.saved) then None
    else match mv
      case PeerSends(m) =>
        if a.w.dead || !MayAnswer(a.w, a.l, m) then None
        else Some(State(a.w, a.l.(net := a.l.net + EndToEnd.PaddedBytes(m.p), msgs := a.l.msgs + [m])))
      case PollBody(i, ev, complete) =>
        OnLink(PollThen(a, ev, Step.Poll(i, EventFound(a.w, a.l, ev), complete)), LinkAfter(a.w, a.l, ev))
      case Begin(ev, x, order, o) => BeginOn(a, ev, EventFound(a.w, a.l, ev), x, order, o)
      case Refuse(ev) =>
        if !EventFound(a.w, a.l, ev).Lost? then None
        else OnLink(PollThen(a, ev, GiveUp), LinkAfter(a.w, a.l, ev))
      case Local(s) =>
        if !IsLocal(s) then None else OnLink(Next(Some(a.w), s), a.l)
  }

  function Go(r: Option<State>, mv: Move): Option<State>
  {
    match r case None => None case Some(a) => Do(a, mv)
  }

  /** A course of events. */
  function Course(a: State, mvs: seq<Move>): Option<State>
  {
    Fold(Go, Some(a), mvs)
  }

  lemma CourseBack(a: State, mvs: seq<Move>) returns (b: State)
    requires mvs != [] && Course(a, mvs).Some?
    ensures Course(a, mvs[..|mvs| - 1]) == Some(b) && Course(a, mvs) == Do(b, mvs[|mvs| - 1])
  {
    b := Course(a, mvs[..|mvs| - 1]).value;
  }

  lemma CourseThen(a: State, mvs: seq<Move>, b: State, mv: Move)
    requires Course(a, mvs) == Some(b)
    ensures Course(a, mvs + [mv]) == Do(b, mv)
  {
    assert (mvs + [mv])[..|mvs|] == mvs;
  }

  // ---------- every move keeps the link ----------

  /** The accounts of the state hold, and the link belongs to it. */
  predicate Sound(a: State)
  {
    Flow(a.w) && Linked(a.w, a.l)
  }

  lemma {:induction false} FlowRun(w: World, steps: seq<Step>)
    requires Flow(w) && Exec(w, steps).Some?
    ensures Flow(Exec(w, steps).value) && Exec(w, steps).value.max == w.max
    decreases |steps|
  {
    if steps != [] {
      var v := ExecBack(w, steps);
      FlowRun(w, steps[..|steps| - 1]);
      FlowStep(v, steps[|steps| - 1]);
      MaxKept(v, steps[|steps| - 1]);
    }
  }

  lemma PollLinked(v: World, s: Step, l: Link)
    requires Shape(v) && s.Poll? && Enabled(v, s) && Linked(Happen(v, s.ev), l)
    ensures Linked(Take(v, s), l)
  {
    EventFrame(v, s.ev);
    PollTaken(v, s);
    LinkKept(Happen(v, s.ev), PollOne(Happen(v, s.ev), s.i, s.complete), l);
  }

  lemma InsertLinked(h: World, x: nat, order: Order, o: Outcome, l: Link)
    requires Linked(h, l) && h.pending > 0 && Vacant(h.slots, x) && x < h.max
    ensures Linked(Insert(h, x, order, o), l)
  {
    InsertChanges(h, x, order, o);
    LinkKept(h, Insert(h, x, order, o), l);
  }

  lemma StartLinked(v: World, s: Step, l: Link)
    requires Shape(v) && s.Start? && Enabled(v, s) && Linked(Happen(v, s.ev), l)
    ensures Linked(Take(v, s), if s.ev.Lost? then NEW_LINK else l)
  {
    EventFrame(v, s.ev);
    if s.ev.Lost? {
      NewLink(Happen(v, s.ev));
    }
    InsertLinked(Prepared(v, s.ev), s.x, s.order, s.o, if s.ev.Lost? then NEW_LINK else l);
  }

  lemma GiveUpLinked(v: World, l: Link)
    requires Shape(v) && Enabled(v, GiveUp) && Linked(Lose(v), l)
    ensures Linked(Take(v, GiveUp), l)
  {
    LinkKept(Lose(v), Take(v, GiveUp), l);
  }

  lemma LocalLinked(w: World, s: Step, l: Link)
    requires Linked(w, l) && IsLocal(s) && Enabled(w, s)
    ensures Linked(Take(w, s), l)
  {
    if s.SendChunk? || s.SendEnd? {
      SendKeeps(w, s, s.i);
    }
    LinkKept(w, Take(w, s), l);
  }

  /** The steps of the transition system that a move is: what the peer sends, and one step of the client. */
  function StepsOf(a: State, mv: Move): seq<Step>
    requires Owing(a.l.saved)
  {
    match mv
    case PeerSends(_) => []
    case PollBody(i, ev, complete) =>
      PeerSteps(Found(a.l, ev).recs) + [Step.Poll(i, EventFound(a.w, a.l, ev), complete)]
    case Begin(ev, x, order, o) =>
      PeerSteps(Found(a.l, ev).recs) + [Step.Start(EventFound(a.w, a.l, ev), x, order, o)]
    case Refuse(ev) => PeerSteps(Found(a.l, ev).recs) + [GiveUp]
    case Local(s) => [s]
  }

  /** A poll of the connection and a step, from the bytes. */
  lemma PolledThen(a: State, ev: SocketEvent, s: Step, b: World) returns (v: World)
    requires Linked(a.w, a.l) && PollThen(a, ev, s) == Some(b)
    ensures Simulates(a.w, a.l, ev, v) && Enabled(v, s) && b == Take(v, s)
    ensures Exec(a.w, PeerSteps(Found(a.l, ev).recs) + [s]) == Some(b)
  {
    v := PollSimulated(a.w, a.l, ev);
    ExecOne(a.w, PeerSteps(Found(a.l, ev).recs), s);
  }

  lemma PollBodyLinked(a: State, ev: SocketEvent, s: Step, b: World)
    requires Linked(a.w, a.l) && s.Poll? && s.ev == EventFound(a.w, a.l, ev) && PollThen(a, ev, s) == Some(b)
    ensures Exec(a.w, PeerSteps(Found(a.l, ev).recs) + [s]) == Some(b) && Linked(b, LinkAfter(a.w, a.l, ev))
  {
    var v := PolledThen(a, ev, s, b);
    PollLinked(v, s, LinkAfter(a.w, a.l, ev));
  }

  lemma BeginLinked(a: State, ev: SocketEvent, s: Step, b: World)
    requires Linked(a.w, a.l) && s.Start? && s.ev == EventFound(a.w, a.l, ev) && PollThen(a, ev, s) == Some(b)
    ensures Exec(a.w, PeerSteps(Found(a.l, ev).recs) + [s]) == Some(b)
    ensures Linked(b, if s.ev.Lost? then NEW_LINK else LinkAfter(a.w, a.l, ev))
  {
    var v := PolledThen(a, ev, s, b);
    StartLinked(v, s, LinkAfter(a.w, a.l, ev));
  }

  lemma RefuseLinked(a: State, ev: SocketEvent, b: World)
    requires Linked(a.w, a.l) && EventFound(a.w, a.l, ev).Lost? && PollThen(a, ev, GiveUp) == Some(b)
    ensures Exec(a.w, PeerSteps(Found(a.l, ev).recs) + [GiveUp]) == Some(b) && Linked(b, LinkAfter(a.w, a.l, ev))
  {
    var v := PolledThen(a, ev, GiveUp, b);
    GiveUpLinked(v, LinkAfter(a.w, a.l, ev));
  }

  lemma MoveLinked(a: State, mv: Move, b: State)
    requires Linked(a.w, a.l) && Do(a, mv) == Some(b)
    ensures Exec(a.w, StepsOf(a, mv)) == Some(b.w) && Linked(b.w, b.l)
  {
    match mv {
      case PeerSends(m) => PeerWrites(a.w, a.l, m);
      case PollBody(i, ev, complete) =>
        PollBodyLinked(a, ev, Step.Poll(i, EventFound(a.w, a.l, ev), complete), b.w);
      case Begin(ev, x, order, o) => BeginLinked(a, ev, Step.Start(EventFound(a.w, a.l, ev), x, order, o), b.w);
      case Refuse(ev) => RefuseLinked(a, ev, b.w);
      case Local(s) =>
        LocalLinked(a.w, s, a.l);
        ExecOne(a.w, [], s);
        assert [] + [s] == [s];
    }
  }

  /** Every move is steps of the transition system, and keeps accounts and link. */
  lemma MoveSound(a: State, mv: Move, b: State)
    requires Sound(a) && Do(a, mv) == Some(b)
    ensures Exec(a.w, StepsOf(a, mv)) == Some(b.w) && Sound(b) && b.w.max == a.w.max
  {
    MoveLinked(a, mv, b);
    FlowRun(a.w, StepsOf(a, mv));
  }

  lemma StartsSound(max: nat)
    requires max < 0x1_0000
    ensures Sound(Initial(max)) && Reachable(Init(max))
  {
    assert After(max, []) == Some(Init(max));
    ReachableKeeps(Init(max));
  }

  lemma ReachableOn(w: World, steps: seq<Step>, r: World)
    requires Reachable(w) && Shape(w) && Exec(w, steps) == Some(r)
    ensures Reachable(r)
  {
    var before :| After(w.max, before) == Some(w);
    ExecTwice(Init(w.max), before, steps);
    assert After(w.max, before + steps) == Some(r);
    RunKeeps(w.max, before + steps);
  }

  /** Every course of events in bytes is a run of the transition system, and the link belongs to its last state. */
  lemma {:induction false} CourseIsRun(max: nat, mvs: seq<Move>)
    requires max < 0x1_0000 && Course(Initial(max), mvs).Some?
    ensures var a := Course(Initial(max), mvs).value; Reachable(a.w) && a.w.max == max && Sound(a)
    decreases |mvs|
  {
    if mvs == [] {
      StartsSound(max);
    } else {
      var n := |mvs| - 1;
      var a := CourseBack(Initial(max), mvs);
      CourseIsRun(max, mvs[..n]);
      MoveSound(a, mvs[n], Course(Initial(max), mvs).value);
      ReachableOn(a.w, StepsOf(a, mvs[n]), Course(Initial(max), mvs).value.w);
    }
  }

  /** A state that some course of events leads to. */
  ghost predicate Arises(a: State)
  {
    exists mvs :: a.w.max < 0x1_0000 && Course(Initial(a.w.max), mvs) == Some(a)
  }

  lemma ArisesSound(a: State)
    requires Arises(a)
    ensures Sound(a) && Reachable(a.w)
  {
    var mvs :| Course(Initial(a.w.max), mvs) == Some(a);
    CourseIsRun(a.w.max, mvs);
  }

  // ---------- what the moves do to slots, permits and bytes ----------

  /** The request is as it was, but for what was sent and delivered. */
  predicate SameBody(a: Inst, b: Inst)
  {
    b == a.(sent := b.sent, peerEnded := b.peerEnded, delivered := b.delivered)
  }

  /** The state between a poll of the connection and the client's step: v with what the peer sent, h after event e. */
  predicate Between(w: World, v: World, e: Event, h: World, slots: Slab)
  {
    && Shape(v) && Possible(v, e) && h == Happen(v, e) && h.slots == slots
    && |h.insts| == |v.insts| == |w.insts| && h.pending == v.pending == w.pending && h.max == v.max == w.max
    && v == w.(insts := v.insts, inflight := v.inflight)
    && (forall i :: 0 <= i < |w.insts| ==> SameBody(w.insts[i], v.insts[i]) && SameBody(w.insts[i], h.insts[i]))
  }

  lemma BroughtBetween(w: World, recs: seq<PeerRec>, v: World, e: Event, slots: Slab, l: Link)
    requires Flow(w) && Brought(w, recs, v, e, slots, l)
    ensures Between(w, v, e, Happen(v, e), slots) && Flow(v) && (!w.dead && w.inflight == [] ==> v.inflight == recs)
  {
    FlowRun(w, PeerSteps(recs));
    EventFrame(v, e);
    WireFrame(v, e);
    forall i | 0 <= i < |w.insts| ensures SameBody(w.insts[i], Happen(v, e).insts[i]) {
      SameInst(v, e, i);
    }
  }

  /** From what the peer has sent, every step can be taken that is possible then. */
  lemma StepsAfter(a: State, ev: SocketEvent, v: World)
    requires Linked(a.w, a.l) && Offers(a.l, ev) && PollOf(a.w, a.l, ev).state != Crashed
    requires Exec(a.w, PeerSteps(Found(a.l, ev).recs)) == Some(v) && Shape(v)
    ensures forall s :: Enabled(v, s) ==> PollThen(a, ev, s) == Some(Take(v, s))
  {}

  /** Polling the connection is possible unless it panics, and so is every step that is possible then. */
  lemma ConnectionPolled(a: State, ev: SocketEvent) returns (v: World, e: Event, h: World)
    requires Sound(a) && Offers(a.l, ev) && PollOf(a.w, a.l, ev).state != Crashed
    ensures Between(a.w, v, e, h, PollOf(a.w, a.l, ev).slots) && Flow(v) && e == EventFound(a.w, a.l, ev)
    ensures e.Lost? <==> PollOf(a.w, a.l, ev).state in {Closed, Failed}
    ensures !a.w.dead ==> v.inflight == Found(a.l, ev).recs
    ensures forall s :: Enabled(v, s) ==> PollThen(a, ev, s) == Some(Take(v, s))
  {
    v := PollSimulated(a.w, a.l, ev);
    e := EventFound(a.w, a.l, ev);
    h := Happen(v, e);
    StepsAfter(a, ev, v);
    BroughtBetween(a.w, Found(a.l, ev).recs, v, e, PollOf(a.w, a.l, ev).slots, LinkAfter(a.w, a.l, ev));
  }

  /**
   * Polling a body, from the bytes: what its connection and its slot become, what it answers and when it is done are
   * what the functions of the code say. No poll that does not panic is left out.
   */
  lemma BodyPolled(a: State, i: nat, ev: SocketEvent, complete: bool) returns (b: State)
    requires Sound(a) && Offers(a.l, ev) && i < |a.w.insts| && Pollable(a.w.insts[i])
    requires PollOf(a.w, a.l, ev).state != Crashed
    ensures Do(a, PollBody(i, ev, complete)) == Some(b) && Sound(b) && i < |b.w.insts|
    ensures var p, returned := PollOf(a.w, a.l, ev), a.w.insts[i].phase == Returned;
            var q := PollSlot(p.slots, a.w.insts[i].rid, returned);
            && b.w.slots == q.slots && b.l.saved == p.saved && b.l.unread == p.unread
            && b.w.permits + Count(b.w.slots) == a.w.permits + Count(a.w.slots)
            && Answered(a.w.insts[i], b.w.insts[i], q, complete)
  {
    var v, e, h := ConnectionPolled(a, ev);
    var s := Step.Poll(i, e, complete);
    PollTaken(v, s);
    b := PollBodyIs(a, i, ev, e, complete, Take(v, s));
    OnePolled(a.w.insts[i], h, i, complete);
  }

  lemma PollBodyIs(a: State, i: nat, ev: SocketEvent, e: Event, complete: bool, r: World) returns (b: State)
    requires Sound(a) && e == EventFound(a.w, a.l, ev) && PollThen(a, ev, Step.Poll(i, e, complete)) == Some(r)
    ensures Do(a, PollBody(i, ev, complete)) == Some(b) && Sound(b) && b == State(r, LinkAfter(a.w, a.l, ev))
    ensures b.w.permits + b.w.pending + Count(b.w.slots) == b.w.max == a.w.max
  {
    b := State(r, LinkAfter(a.w, a.l, ev));
    MoveSound(a, PollBody(i, ev, complete), b);
  }

  /** The body after its poll has been answered. */
  predicate Answered(a: Inst, b: Inst, q: PollResult, complete: bool)
  {
    var c := if q.answer.Chunk? then q.answer.bytes else [];
    && (q.done <==> b.phase == Done) && (b.waiting <==> q.answer == Waiting)
    && (q.answer == Waiting ==> Occupied(q.slots, a.rid) && q.slots[a.rid].value.waker)
    && if a.phase == Returned then b.yielded == a.yielded + c && b.heading == a.heading
       else b.taken == a.taken + c
            && b.heading == (if q.answer == Finished then CutOff
                             else if q.answer.Chunk? && complete then Parsed else Reading)
  }

  lemma OnePolled(inst: Inst, h: World, i: nat, complete: bool)
    requires Shape(h) && i < |h.insts| && Pollable(inst) && SameBody(inst, h.insts[i])
    ensures var r, q := PollOne(h, i, complete), PollSlot(h.slots, inst.rid, inst.phase == Returned);
            r.slots == q.slots && r.max == h.max && r.pending == h.pending && Answered(inst, r.insts[i], q, complete)
  {}

  /** The transport of w can take this write: one that has failed takes nothing more. */
  predicate Writes(w: World, before: bytes, after: bytes, recs: seq<Rec>, ok: bool)
    requires Sized(recs)
  {
    Wrote(before, after, WireBytes(recs), ok) && (w.jammed ==> !ok && after == before)
  }

  /** The bytes on the transport that the request begins on, which is the old one or a new one. */
  function Before(w: World, c: Readiness): bytes
    requires Sized(RecsOf(w.wire))
  {
    if c == Alive then PeerBytes(w) else []
  }

  /** A request may begin at entry x, on a connection that a poll has found alive, or that has been replaced. */
  predicate MayBegin(a: State, ev: SocketEvent, c: Readiness, x: nat, order: Order)
    requires Owing(a.l.saved)
  {
    && c in {Alive, Replaced} && a.w.pending > 0 && x < 0xffff && Vacant(PollOf(a.w, a.l, ev).slots, x)
    && (order.len.Some? ==> order.len.value < USIZE)
  }

  /** What becomes of the connection when a request wants to begin. */
  function ReadyAt(a: State, ev: SocketEvent, notConnected: bool, connects: bool): Readiness
    requires Owing(a.l.saved)
  {
    ReadinessOf(PollOf(a.w, a.l, ev).state, notConnected, connects)
  }

  /**
   * Beginning a request, from the bytes: whatever its opening leaves on the transport, there is a move that takes this
   * entry and leaves these bytes.
   */
  lemma RequestBegun(a: State, ev: SocketEvent, notConnected: bool, connects: bool, c: Readiness, x: nat,
                     order: Order, after: bytes, ok: bool)
      returns (o: Outcome, b: State)
    requires Sound(a) && Wire(a.w) && Offers(a.l, ev) && Sized(RecsOf(a.w.wire))
    requires c == ReadyAt(a, ev, notConnected, connects) && MayBegin(a, ev, c, x, order)
    requires Wrote(Before(a.w, c), after, WireBytes(OrderRecs(x + 1, order)), ok)
    requires c == Alive && a.w.jammed ==> !ok && after == PeerBytes(a.w)
    ensures Do(a, Begin(ev, x, order, o)) == Some(b) && Sound(b) && (o.Written? <==> ok)
    ensures var p := PollOf(a.w, a.l, ev);
            && b.w.slots == Entered(p.slots, x) && b.w.pending == a.w.pending - 1
            && b.l == (if c == Alive then LinkAfter(a.w, a.l, ev) else NEW_LINK)
            && |b.w.insts| == |a.w.insts| + 1 && Entrant(b.w, b.w.insts[|a.w.insts|], x, order, ok)
    ensures Sized(RecsOf(b.w.wire)) && PeerBytes(b.w) == after
  {
    var v, e, h := ConnectionPolled(a, ev);
    o := BeginOutcome(a.w, v, e, h, PollOf(a.w, a.l, ev).slots, c, x, order, after, ok);
    b := BeginsAt(a, ev, v, e, h, x, order, o);
    StartTaken(v, e, x, order, o, b.w);
  }

  lemma BeginOutcome(w: World, v: World, e: Event, h: World, slots: Slab, c: Readiness, x: nat, order: Order,
                     after: bytes, ok: bool)
      returns (o: Outcome)
    requires Wire(w) && Sized(RecsOf(w.wire)) && Between(w, v, e, h, slots) && (e.Lost? <==> c != Alive) && x < 0xffff
    requires Wrote(Before(w, c), after, WireBytes(OrderRecs(x + 1, order)), ok)
    requires c == Alive && w.jammed ==> !ok && after == PeerBytes(w)
    ensures Writable(Prepared(v, e), OrderRecs(x + 1, order), o) && (o.Written? <==> ok)
    ensures var t := OpeningOf(v, e, x, order, o); Sized(RecsOf(t.wire)) && PeerBytes(t) == after
  {
    o := OpeningOutcome(w, v, e, x, order, after, ok);
  }

  lemma BeginsAt(a: State, ev: SocketEvent, v: World, e: Event, h: World, x: nat, order: Order, o: Outcome)
      returns (b: State)
    requires Sound(a) && e == EventFound(a.w, a.l, ev) && Flow(v) && v.pending > 0
    requires forall s :: Enabled(v, s) ==> PollThen(a, ev, s) == Some(Take(v, s))
    requires Possible(v, e) && h == Happen(v, e) && Vacant(h.slots, x) && x < 0xffff
    requires (order.len.Some? ==> order.len.value < USIZE) && Writable(Prepared(v, e), OrderRecs(x + 1, order), o)
    ensures Enabled(v, Step.Start(e, x, order, o)) && b.w == Take(v, Step.Start(e, x, order, o))
    ensures Do(a, Begin(ev, x, order, o)) == Some(b) && Sound(b)
    ensures b.l == if e.Lost? then NEW_LINK else LinkAfter(a.w, a.l, ev)
  {
    RoomFor(v, e, x);
    var s := Step.Start(e, x, order, o);
    assert Enabled(v, s);
    b := BeginIs(a, ev, e, x, order, o, Take(v, s));
  }

  lemma BeginIs(a: State, ev: SocketEvent, e: Event, x: nat, order: Order, o: Outcome, r: World) returns (b: State)
    requires Sound(a) && e == EventFound(a.w, a.l, ev) && PollThen(a, ev, Step.Start(e, x, order, o)) == Some(r)
    ensures Do(a, Begin(ev, x, order, o)) == Some(b) && Sound(b)
    ensures b == State(r, if e.Lost? then NEW_LINK else LinkAfter(a.w, a.l, ev))
  {
    b := State(r, if e.Lost? then NEW_LINK else LinkAfter(a.w, a.l, ev));
    BeginSound(a, ev, Step.Start(e, x, order, o), b);
    DoBegin(a, ev, x, order, o);
  }

  lemma DoBegin(a: State, ev: SocketEvent, x: nat, order: Order, o: Outcome)
    requires Shape(a.w) && Owing(a.l.saved)
    ensures Do(a, Begin(ev, x, order, o)) == BeginOn(a, ev, EventFound(a.w, a.l, ev), x, order, o)
  {}

  lemma BeginSound(a: State, ev: SocketEvent, s: Step, b: State)
    requires Sound(a) && s.Start? && s.ev == EventFound(a.w, a.l, ev) && PollThen(a, ev, s) == Some(b.w)
    requires b.l == if s.ev.Lost? then NEW_LINK else LinkAfter(a.w, a.l, ev)
    ensures Sound(b)
  {
    BeginLinked(a, ev, s, b.w);
    FlowRun(a.w, PeerSteps(Found(a.l, ev).recs) + [s]);
  }

  /** The request that has just begun. */
  predicate Entrant(w: World, inst: Inst, x: nat, order: Order, ok: bool)
  {
    && inst.rid == x && inst.epoch == w.epoch && !inst.peerEnded && !inst.waiting && inst.heading == Reading
    && inst.params == order.params && inst.announced == (if order.len.Some? then order.len.value else 0)
    && inst.input == [] && inst.sent == inst.delivered == inst.taken == inst.yielded == []
    && inst.phase == (if !ok then Unopened else if order.rejected then Rejected else Parsing)
    && inst.sending == if !ok then Broken else if order.rejected then Aborted
                       else if order.len.Some? then Open else Ended
  }

  /** An entry that is vacant for a request with its permit is below the limit. */
  lemma RoomFor(v: World, e: Event, x: nat)
    requires Core(v) && Possible(v, e) && v.pending > 0 && Vacant(Happen(v, e).slots, x)
    ensures x < v.max
  {
    CoreHappen(v, e);
    EventFrame(v, e);
    CountBound(Happen(v, e).slots);
  }

  /** The connection after the opening of a request has been written on it. */
  function OpeningOf(v: World, e: Event, x: nat, order: Order, o: Outcome): World
    requires Shape(v) && Possible(v, e) && x + 1 < 0x1_0000
  {
    var h := Prepared(v, e);
    Write(h, |h.insts|, OrderRecs(x + 1, order), o)
  }

  /** The connection as the new request finds it, and what has been written on it. */
  lemma Prepares(w: World, v: World, e: Event)
    requires TornOk(w) && Sized(RecsOf(w.wire)) && Shape(v) && Possible(v, e)
    requires v.wire == w.wire && v.torn == w.torn && v.jammed == w.jammed
    ensures var h := Prepared(v, e);
            && TornOk(h) && Sized(RecsOf(h.wire))
            && (if e.Lost? then PeerBytes(h) == [] && !h.jammed
                else PeerBytes(h) == PeerBytes(w) && h.jammed == w.jammed)
  {
    WireFrame(v, e);
    if e.Lost? {
      NewLink(Happen(v, e));
    } else {
      PeerBytesSame(w, Happen(v, e));
    }
  }

  /** What the opening has left on the wire is an outcome. */
  lemma OpeningOutcome(w: World, v: World, e: Event, x: nat, order: Order, after: bytes, ok: bool)
      returns (o: Outcome)
    requires TornOk(w) && Sized(RecsOf(w.wire)) && Shape(v) && Possible(v, e) && x + 1 < 0x1_0000
    requires v.wire == w.wire && v.torn == w.torn && v.jammed == w.jammed
    requires Wrote(if e.Lost? then [] else PeerBytes(w), after, WireBytes(OrderRecs(x + 1, order)), ok)
    requires !e.Lost? && w.jammed ==> !ok && after == PeerBytes(w)
    ensures Writable(Prepared(v, e), OrderRecs(x + 1, order), o) && (o.Written? <==> ok)
    ensures var t := OpeningOf(v, e, x, order, o); Sized(RecsOf(t.wire)) && PeerBytes(t) == after
  {
    var h := Prepared(v, e);
    Prepares(w, v, e);
    OpeningBegins(x + 1, order, Written);
    o := WriteSimulated(h, |h.insts|, OrderRecs(x + 1, order), after, ok);
  }

  lemma StartTaken(v: World, e: Event, x: nat, order: Order, o: Outcome, r: World)
    requires Shape(v) && Enabled(v, Step.Start(e, x, order, o)) && r == Take(v, Step.Start(e, x, order, o))
    requires Sized(RecsOf(OpeningOf(v, e, x, order, o).wire))
    ensures r.slots == Entered(Happen(v, e).slots, x) && r.pending == v.pending - 1
    ensures |r.insts| == |v.insts| + 1 && Entrant(r, r.insts[|v.insts|], x, order, o.Written?)
    ensures Sized(RecsOf(r.wire)) && PeerBytes(r) == PeerBytes(OpeningOf(v, e, x, order, o))
  {
    EventFrame(v, e);
    InsertChanges(Prepared(v, e), x, order, o);
    PeerBytesSame(OpeningOf(v, e, x, order, o), r);
  }

  /** An unusable connection: the request gives up, and its permit is free again. */
  lemma RequestRefused(a: State, ev: SocketEvent, notConnected: bool, connects: bool) returns (b: State)
    requires Sound(a) && Offers(a.l, ev) && a.w.pending > 0
    requires ReadyAt(a, ev, notConnected, connects) == Unusable
    ensures Do(a, Refuse(ev)) == Some(b) && Sound(b) && b.w.slots == PollOf(a.w, a.l, ev).slots
    ensures b.l == LinkAfter(a.w, a.l, ev) && b.w.permits == a.w.permits + 1 && b.w.pending == a.w.pending - 1
  {
    var v, e, h := ConnectionPolled(a, ev);
    assert Enabled(v, GiveUp) && e.Lost?;
    b := RefuseIs(a, ev, Take(v, GiveUp));
  }

  lemma RefuseIs(a: State, ev: SocketEvent, r: World) returns (b: State)
    requires Sound(a) && EventFound(a.w, a.l, ev).Lost? && PollThen(a, ev, GiveUp) == Some(r)
    ensures Do(a, Refuse(ev)) == Some(b) && Sound(b) && b == State(r, LinkAfter(a.w, a.l, ev))
  {
    b := State(r, LinkAfter(a.w, a.l, ev));
    RefuseLinked(a, ev, r);
    FlowRun(a.w, PeerSteps(Found(a.l, ev).recs) + [GiveUp]);
    DoRefuse(a, ev);
  }

  lemma DoRefuse(a: State, ev: SocketEvent)
    requires Shape(a.w) && Owing(a.l.saved) && EventFound(a.w, a.l, ev).Lost?
    ensures Do(a, Refuse(ev)) == OnLink(PollThen(a, ev, GiveUp), LinkAfter(a.w, a.l, ev))
  {}

  lemma LocalSound(a: State, s: Step) returns (b: State)
    requires Sound(a) && IsLocal(s) && Enabled(a.w, s)
    ensures b == State(Take(a.w, s), a.l) && Do(a, Local(s)) == Some(b) && Sound(b)
  {
    b := State(Take(a.w, s), a.l);
    MoveSound(a, Local(s), b);
  }

  /** A permit is there to be taken as long as there is one, and one that waits for its request is pending. */
  lemma PermitTaken(a: State) returns (b: State)
    requires Sound(a) && a.w.permits > 0
    ensures Do(a, Local(Acquire)) == Some(b) && Sound(b)
    ensures b == State(a.w.(permits := a.w.permits - 1, pending := a.w.pending + 1), a.l)
  {
    b := LocalSound(a, Acquire);
  }

  /**
   * The body is handed over with head bytes of what was read for the header: the rest goes behind everything that is
   * queued, and nothing else changes.
   */
  lemma HandedOverAs(a: State, i: nat, head: nat) returns (b: State)
    requires Sound(a) && Enabled(a.w, Step.Handover(i, head))
    ensures Do(a, Local(Step.Handover(i, head))) == Some(b) && Sound(b) && b.l == a.l
    ensures |b.w.insts| == |a.w.insts| && b.w.insts[i].phase == Returned && b.w.permits == a.w.permits
    ensures var x, left := a.w.insts[i].rid, a.w.insts[i].taken[head..];
            && b.w.insts[i].taken + left == a.w.insts[i].taken && b.w.insts[i].yielded == a.w.insts[i].yielded
            && (left == [] ==> b.w.slots == a.w.slots)
            && (left != [] ==>
                  var q := a.w.slots[x].value;
                  b.w.slots == a.w.slots[x := Some(Request(q.buf + [left], q.waker, q.ended, q.aborted))])
  {
    b := LocalSound(a, Step.Handover(i, head));
    var taken := a.w.insts[i].taken;
    assert taken[..head] + taken[head..] == taken;
  }

  /** A body can be dropped at any time: its request is aborted if the lock is free, and nothing else changes. */
  lemma DroppedAs(a: State, i: nat, locked: bool) returns (b: State)
    requires Sound(a) && i < |a.w.insts| && Live(a.w.insts[i])
    ensures Do(a, Local(Step.Drop(i, locked))) == Some(b) && Sound(b) && b.l == a.l
    ensures |b.w.insts| == |a.w.insts| && b.w.insts[i].phase == Dropped && b.w.permits == a.w.permits
    ensures b.w.insts[i].sending == if a.w.insts[i].sending == Open then Broken else a.w.insts[i].sending
    ensures var x := a.w.insts[i].rid;
            && a.w.slots[x].Some?
            && var q := a.w.slots[x].value;
               b.w.slots == if locked then a.w.slots[x := Some(Request(q.buf, false, q.ended, true))] else a.w.slots
  {
    b := LocalSound(a, Step.Drop(i, locked));
    assert InstOk(a.w, i) && Holds(a.w, i);
  }

  /** A chunk of the request body, from the bytes it has left on the wire. */
  lemma ChunkSentAs(a: State, i: nat, data: bytes, after: bytes, ok: bool) returns (o: Outcome, b: State)
    requires Sound(a) && Wire(a.w) && i < |a.w.insts| && a.w.insts[i].sending == Open && data != []
    requires Sized(RecsOf(a.w.wire)) && Writes(a.w, PeerBytes(a.w), after, ChunkOf(a.w, i, data), ok)
    ensures Do(a, Local(SendChunk(i, data, o))) == Some(b) && Sound(b) && b.w.slots == a.w.slots
    ensures |b.w.insts| == |a.w.insts| && b.w.insts[i].sending == (if ok then Open else Broken)
    ensures b.w.insts[i].input == if ok then a.w.insts[i].input + [data] else a.w.insts[i].input
    ensures Sized(RecsOf(b.w.wire)) && PeerBytes(b.w) == after
  {
    o := WriteSimulated(a.w, i, ChunkOf(a.w, i, data), after, ok);
    var s := SendChunk(i, data, o);
    b := LocalSound(a, s);
    ChunkTaken(a.w, s);
    SendKeeps(a.w, s, i);
    PeerBytesSame(Write(a.w, i, ChunkOf(a.w, i, data), o), b.w);
  }

  /** And its end, or the abort if bytes are missing. */
  lemma EndSentAs(a: State, i: nat, after: bytes, ok: bool) returns (o: Outcome, b: State)
    requires Sound(a) && Wire(a.w) && i < |a.w.insts| && a.w.insts[i].sending == Open
    requires Sized(RecsOf(a.w.wire)) && Writes(a.w, PeerBytes(a.w), after, EndOf(a.w, i), ok)
    ensures Do(a, Local(SendEnd(i, o))) == Some(b) && Sound(b) && b.w.slots == a.w.slots
    ensures |b.w.insts| == |a.w.insts|
    ensures b.w.insts[i].sending
         == if !ok then Broken
            else if Missing(a.w.insts[i].announced, |Flatten(a.w.insts[i].input)|) > 0 then Aborted else Ended
    ensures Sized(RecsOf(b.w.wire)) && PeerBytes(b.w) == after
  {
    o := WriteSimulated(a.w, i, EndOf(a.w, i), after, ok);
    var s := SendEnd(i, o);
    b := LocalSound(a, s);
    EndingTaken(a.w, s);
    SendKeeps(a.w, s, i);
    PeerBytesSame(Write(a.w, i, EndOf(a.w, i), o), b.w);
  }
}
