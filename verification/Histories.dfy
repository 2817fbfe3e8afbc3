/** Courses of events in bytes that show what the theorems about courses of events speak of. */
module Histories {
  import opened Octets
  import opened Records
  import opened Reader
  import opened Framing
  import opened Codec
  import opened Requests
  import opened Connection
  import opened Client
  import opened Ownership
  import opened Delivery
  import opened Senders
  import opened Runs
  import opened Link
  import opened Moves
  import opened Leaks
  import opened Rescues
  import EndToEnd

  // ---------- moves that read nothing ----------

  lemma ArisesMore(a: State, mv: Move, b: State)
    requires Arises(a) && Do(a, mv) == Some(b)
    ensures Arises(b) && Sound(b) && b.w.max == a.w.max
  {
    ArisesSound(a);
    MoveSound(a, mv, b);
    var mvs :| Course(Initial(a.w.max), mvs) == Some(a);
    CourseThen(Initial(a.w.max), mvs, a, mv);
    assert Course(Initial(b.w.max), mvs + [mv]) == Some(b);
  }

  /** A step without records from the peer. */
  predicate Dry(s: Step)
  {
    match s
    case Start(ev, _, _, _) => !ev.Got?
    case Poll(_, ev, _) => !ev.Got?
    case Peer(_, _) => false
    case _ => true
  }

  /** Nothing has been written by the peer on the connection, if that lives. */
  ghost predicate Rests(a: State)
  {
    Arises(a) && Sound(a) && (!a.w.dead ==> a.l == NEW_LINK)
  }

  lemma QuietThen(a: State, s: Step)
    requires Sound(a) && !a.w.dead && a.l == NEW_LINK && Enabled(a.w, s)
    ensures Offers(a.l, NotReady) && PollThen(a, NotReady, s) == Some(Take(a.w, s))
    ensures EventFound(a.w, a.l, NotReady) == Idle && LinkAfter(a.w, a.l, NotReady) == a.l
  {
    NothingFed(a.w);
  }

  lemma DryPoll(a: State, s: Step) returns (mv: Move, b: State)
    requires Rests(a) && s.Poll? && Dry(s) && Enabled(a.w, s)
    ensures Do(a, mv) == Some(b) && b.w == Take(a.w, s) && (!b.w.dead ==> b.l == NEW_LINK)
  {
    var ev := if s.ev.Lost? then Fault else NotReady;
    mv := PollBody(s.i, ev, s.complete);
    if s.ev.Lost? {
      FaultLoses(a);
      LostThen(a, s);
      EventFrame(a.w, Lost);
      PollTaken(a.w, s);
    } else {
      QuietThen(a, s);
    }
    b := PollBodyIs(a, s.i, ev, s.ev, s.complete, Take(a.w, s));
  }

  lemma DryStart(a: State, s: Step) returns (mv: Move, b: State)
    requires Rests(a) && s.Start? && Dry(s) && Enabled(a.w, s)
    ensures Do(a, mv) == Some(b) && b.w == Take(a.w, s) && (!b.w.dead ==> b.l == NEW_LINK)
  {
    var ev := if s.ev.Lost? then Fault else NotReady;
    mv := Begin(ev, s.x, s.order, s.o);
    if s.ev.Lost? {
      FaultLoses(a);
      LostThen(a, s);
    } else {
      QuietThen(a, s);
    }
    b := BeginIs(a, ev, s.ev, s.x, s.order, s.o, Take(a.w, s));
  }

  lemma DryRefusal(a: State) returns (mv: Move, b: State)
    requires Rests(a) && Enabled(a.w, GiveUp)
    ensures Do(a, mv) == Some(b) && b.w == Take(a.w, GiveUp) && b.w.dead
  {
    FaultLoses(a);
    LostThen(a, GiveUp);
    mv := Refuse(Fault);
    b := RefuseIs(a, Fault, Take(a.w, GiveUp));
  }

  /** Every step of the transition system without records from the peer is a move in bytes. */
  lemma Did(a: State, s: Step) returns (b: State)
    requires Rests(a) && Dry(s) && Enabled(a.w, s)
    ensures Rests(b) && b.w == Take(a.w, s)
  {
    var mv;
    match s {
      case Poll(_, _, _) => mv, b := DryPoll(a, s);
      case Start(_, _, _, _) => mv, b := DryStart(a, s);
      case GiveUp => mv, b := DryRefusal(a);
      case _ =>
        mv := Local(s);
        b := LocalSound(a, s);
        LocalConnection(a.w, s);
    }
    ArisesMore(a, mv, b);
  }

  /** One permit is taken and one request begun with it. */
  lemma OneStarted(max: nat, order: Order, o: Outcome) returns (a: State)
    requires 1 <= max < 0x1_0000 && (order.len.Some? ==> order.len.value < USIZE)
    requires Writable(Init(max), OrderRecs(1, order), o)
    ensures Rests(a) && !a.w.dead && a.w.epoch == 0 && a.w.max == max
    ensures a.w.permits == max - 1 && a.w.pending == 0 && (a.w.jammed <==> o.Torn?)
    ensures a.w.slots == [Some(FRESH)] && a.w.owner == [0] && a.w.insts == [Opened(Init(max), 0, order, o)]
  {
    StartsSound(max);
    assert Course(Initial(max), []) == Some(Initial(max));
    var w := FirstBegins(max, order, o);
    a := Did(Initial(max), Acquire);
    a := Did(a, Step.Start(Idle, 0, order, o));
  }

  lemma FirstBegins(max: nat, order: Order, o: Outcome) returns (w: World)
    requires 1 <= max < 0x1_0000 && (order.len.Some? ==> order.len.value < USIZE)
    requires Writable(Init(max), OrderRecs(1, order), o)
    ensures var a, s := Take(Init(max), Acquire), Step.Start(Idle, 0, order, o); Enabled(a, s) && w == Take(a, s)
    ensures !w.dead && w.epoch == 0 && w.max == max
    ensures w.permits == max - 1 && w.pending == 0 && (w.jammed <==> o.Torn?)
    ensures w.slots == [Some(FRESH)] && w.owner == [0] && w.insts == [Opened(Init(max), 0, order, o)]
  {
    var a := Take(Init(max), Acquire);
    assert Happen(a, Idle) == a && Prepared(a, Idle) == a && Vacant(a.slots, 0);
    w := Insert(a, 0, order, o);
  }

  /** And its body is dropped at once. */
  lemma OneDropped(max: nat, locked: bool) returns (a: State)
    requires 1 <= max < 0x1_0000
    ensures Rests(a) && !a.w.dead && a.w.epoch == 0 && a.w.max == max
    ensures a.w.permits == max - 1 && a.w.pending == 0 && !a.w.jammed
    ensures a.w.slots == [Some(FRESH.(aborted := locked))] && a.w.owner == [0]
    ensures a.w.insts == [Opened(Init(max), 0, PLAIN, Written).(phase := Dropped)]
  {
    a := OneStarted(max, PLAIN, Written);
    a := Did(a, Step.Drop(0, locked));
  }

  // ---------- every reason for losing a slot ----------

  /** The first request is doomed for this reason and no other. */
  ghost predicate Shows(a: State, d: Doom)
  {
    Arises(a) && Shape(a.w) && |a.w.insts| > 0 && forall e :: Because(a, 0, e) <==> e == d
  }

  /** A dropped request that waits for its end record in vain, for one reason. */
  lemma AbortedShows(a: State, d: Doom)
    requires Arises(a) && Sound(a) && |a.w.insts| > 0 && WasAborted(a.w, 0) && !Deserted(a.w)
    requires d in {ConnectionLost, ConnectionReplaced, EndedBefore, BufferStuck, PaddingOwed}
    requires d == ConnectionLost <==> a.w.dead
    requires d == ConnectionReplaced <==> a.w.insts[0].epoch != a.w.epoch
    requires d == EndedBefore <==> a.w.insts[0].peerEnded
    requires d == BufferStuck <==> !a.w.dead && a.l.unread != []
    requires d == PaddingOwed <==> !a.w.dead && EndTaken(a.l.saved)
    ensures Shows(a, d)
  {
    forall e ensures Because(a, 0, e) <==> e == d {}
  }

  lemma RefusalHappens() returns (a: State)
    ensures Shows(a, Refusal)
  {
    a := OneStarted(2, Order([], None, true), Written);
  }

  lemma FailedOpeningHappens() returns (a: State)
    ensures Shows(a, FailedOpening)
  {
    BreaksOpening(Init(2), 0);
    a := OneStarted(2, PLAIN, BREAK);
  }

  lemma LockTakenHappens() returns (a: State)
    ensures Shows(a, LockTaken)
  {
    a := OneDropped(2, false);
  }

  /** With one ID, dropping the only body is enough: no request can begin, and nobody reads the end record. */
  lemma NobodyLeftHappens() returns (a: State)
    ensures Shows(a, NobodyLeft)
  {
    a := OneDropped(1, true);
    assert forall j :: !ReaderOf(a.w, j);
    assert !Finishes(a.w, 0);
  }

  lemma ConnectionLostHappens() returns (a: State)
    ensures Shows(a, ConnectionLost)
  {
    a := OneDropped(2, true);
    a := Did(a, Acquire);
    a := Did(a, GiveUp);
    AbortedShows(a, ConnectionLost);
  }

  /** The second of two requests. */
  predicate SecondBegun(w: World, ev: Event, o: Outcome, r: World)
    requires Shape(w) && |w.slots| == |w.insts| == 1 && w.slots[0].Some?
  {
    && r.max == 2 && r.permits == 0 && r.pending == 0 && !r.dead
    && r.epoch == w.epoch + (if ev.Lost? then 1 else 0) && r.jammed == (o.Torn? || (!ev.Lost? && w.jammed))
    && r.slots == [if ev.Lost? then Some(Notified(w.slots[0].value)) else w.slots[0], Some(FRESH)]
    && r.owner == [0, 1] && |r.insts| == 2 && r.insts[0] == w.insts[0]
    && r.insts[1] == Opened(if ev.Lost? then Reconnect(w) else w, 1, PLAIN, o)
  }

  lemma SecondBegins(w: World, ev: Event, o: Outcome)
    requires Shape(w) && w.max == 2 && w.permits == 0 && w.pending == 1 && !w.dead && !ev.Got?
    requires |w.slots| == |w.insts| == 1 && w.owner == [0] && w.slots[0].Some?
    requires Writable(if ev.Lost? then Reconnect(w) else w, OrderRecs(2, PLAIN), o)
    ensures var s := Step.Start(ev, 1, PLAIN, o); Enabled(w, s) && SecondBegun(w, ev, o, Take(w, s))
  {
    var h := SecondFinds(w, ev);
    SecondInserted(w, ev, o, h);
  }

  lemma SecondInserted(w: World, ev: Event, o: Outcome, h: World)
    requires Shape(w) && Shape(h) && w.max == 2 && w.permits == 0 && w.pending == 1 && !w.dead
    requires |w.slots| == |w.insts| == 1 && w.owner == [0] && w.slots[0].Some? && Vacant(h.slots, 1)
    requires h.slots == [if ev.Lost? then Some(Notified(w.slots[0].value)) else w.slots[0]]
    requires h == (if ev.Lost? then Reconnect(w) else w).(slots := h.slots)
    ensures SecondBegun(w, ev, o, Insert(h, 1, PLAIN, o))
  {}

  lemma SecondFinds(w: World, ev: Event) returns (h: World)
    requires Shape(w) && w.max == 2 && w.permits == 0 && w.pending == 1 && !w.dead && !ev.Got?
    requires |w.slots| == |w.insts| == 1 && w.owner == [0] && w.slots[0].Some?
    ensures h == Prepared(w, ev) && Vacant(h.slots, 1) && Vacant(Happen(w, ev).slots, 1)
    ensures h.slots == [if ev.Lost? then Some(Notified(w.slots[0].value)) else w.slots[0]]
    ensures h == (if ev.Lost? then Reconnect(w) else w).(slots := h.slots)
  {
    h := Prepared(w, ev);
  }

  /** A second request begins. */
  lemma OneMore(a: State, ev: Event, o: Outcome) returns (b: State)
    requires Rests(a) && a.w.max == 2 && a.w.permits == 1 && a.w.pending == 0 && !a.w.dead && !ev.Got?
    requires |a.w.slots| == |a.w.insts| == 1 && a.w.owner == [0] && a.w.slots[0].Some?
    requires Writable(if ev.Lost? then Reconnect(a.w) else a.w, OrderRecs(2, PLAIN), o)
    ensures Rests(b) && SecondBegun(a.w, ev, o, b.w)
  {
    var c := Did(a, Acquire);
    SameRoom(a.w, c.w, ev, o);
    SecondBegins(c.w, ev, o);
    b := Did(c, Step.Start(ev, 1, PLAIN, o));
  }

  lemma SameRoom(w: World, v: World, ev: Event, o: Outcome)
    requires Shape(w) && Shape(v) && v == w.(permits := v.permits, pending := v.pending)
    requires Writable(if ev.Lost? then Reconnect(w) else w, OrderRecs(2, PLAIN), o)
    ensures Writable(if ev.Lost? then Reconnect(v) else v, OrderRecs(2, PLAIN), o)
    ensures |w.slots| == |w.insts| == 1 && w.slots[0].Some? ==>
              forall r :: SecondBegun(w, ev, o, r) <==> SecondBegun(v, ev, o, r)
  {}

  lemma ConnectionReplacedHappens() returns (a: State)
    ensures Shows(a, ConnectionReplaced)
  {
    a := OneDropped(2, true);
    a := OneMore(a, Lost, Written);
    assert ReaderOf(a.w, 1);
    AbortedShows(a, ConnectionReplaced);
  }

  /** A request with a body, and a second one whose opening fails: no transport will take the rest of the body. */
  lemma SenderJammedHappens() returns (a: State)
    ensures Shows(a, SenderJammed)
  {
    var b := OneStarted(2, Order([], Some(1), false), Written);
    BreaksOpening(b.w, 1);
    a := OneMore(b, Idle, BREAK);
    OneReader(a);
    BlockedShows(a);
  }

  lemma BlockedShows(a: State)
    requires Arises(a) && Sound(a) && Blocked(a)
    requires |a.w.insts| > 0 && Live(a.w.insts[0]) && a.w.insts[0].sending == Open
    ensures Shows(a, SenderJammed)
  {
    assert InstOk(a.w, 0);
    assert Because(a, 0, SenderJammed);
    forall e | e != SenderJammed ensures !Because(a, 0, e) {
      NotForsaken(a, e);
    }
  }

  lemma NotForsaken(a: State, d: Doom)
    requires Shape(a.w) && |a.w.insts| > 0 && Live(a.w.insts[0]) && Forwarded(a.w.insts[0]) && d != SenderJammed
    ensures !Because(a, 0, d)
  {}

  /** The only one that reads is the one that waits for its sender. */
  lemma OneReader(a: State)
    requires Shape(a.w) && a.w.jammed && Full(a.w) && |a.w.insts| == 2
    requires a.w.insts[0].sending == Open && a.w.insts[1].phase == Unopened
    ensures Blocked(a)
  {
    forall j ensures !Finishes(a.w, j) && (ReaderOf(a.w, j) ==> j == 0) && (Endable(a.w, j) ==> j == 0) {}
  }

  // ---------- and the ones that reading brings about ----------

  /** The peer writes m. */
  lemma PeerWrote(a: State, m: Message) returns (b: State)
    requires Arises(a) && Sound(a) && !a.w.dead && MayAnswer(a.w, a.l, m)
    ensures Arises(b) && Sound(b) && b.w == a.w
    ensures b.l == a.l.(net := a.l.net + EndToEnd.PaddedBytes(m.p), msgs := a.l.msgs + [m])
  {
    b := State(a.w, a.l.(net := a.l.net + EndToEnd.PaddedBytes(m.p), msgs := a.l.msgs + [m]));
    ArisesMore(a, PeerSends(m), b);
  }

  /** Output and another record are written on a connection that carries nothing. */
  lemma BothWritten(a: State, out: Message, more: Message) returns (b: State)
    requires Rests(a) && !a.w.dead && MayAnswer(a.w, a.l, out) && MayAnswer(a.w, a.l, more)
    requires out.p.rec.rtype == StdOut
    ensures Arises(b) && Sound(b) && b.w == a.w && Readable(b.w, b.l) && b.l.saved == None && b.l.msgs == [out, more]
    ensures Answer(out) && Answer(more) && b.l.net == EndToEnd.PaddedBytes(out.p) + EndToEnd.PaddedBytes(more.p)
  {
    var c := PeerWrote(a, out);
    AnswerAfter(a.w, out, more, c.l);
    b := PeerWrote(c, more);
  }

  lemma AnswerAfter(w: World, out: Message, more: Message, l: Link)
    requires Shape(w) && MayAnswer(w, NEW_LINK, out) && MayAnswer(w, NEW_LINK, more) && out.p.rec.rtype == StdOut
    requires l == NEW_LINK.(net := [] + EndToEnd.PaddedBytes(out.p), msgs := [] + [out])
    ensures l.msgs == [out] && l.net == EndToEnd.PaddedBytes(out.p) && MayAnswer(w, l, more)
  {}

  lemma OnePeer(w: World, p: PeerRec, v: World)
    requires Shape(w) && Exec(w, PeerSteps([p])) == Some(v)
    ensures Enabled(w, Step.Peer(p.inst, p.body)) && v == Take(w, Step.Peer(p.inst, p.body))
  {
    assert PeerSteps([p]) == [] + [Step.Peer(p.inst, p.body)];
    var u := ExecBack(w, PeerSteps([p]));
  }

  /** The request of instance i after one record has been read while j was polled for its header. */
  predicate OneRead(w: World, p: PeerRec, r: World)
  {
    && !r.dead && r.epoch == w.epoch && r.pending == w.pending && r.max == w.max && r.jammed == w.jammed
    && r.owner == w.owner
    && |r.insts| == |w.insts| && forall i :: 0 <= i < |w.insts| ==> InstRead(w.insts[i], p, i, r.insts[i])
  }

  predicate InstRead(a: Inst, p: PeerRec, i: nat, b: Inst)
  {
    && b.rid == a.rid && b.epoch == a.epoch && b.phase == a.phase && b.sending == a.sending
    && b.peerEnded == (a.peerEnded || (p.inst == i && p.body.EndRequestBody?))
  }

  lemma PieceRead(a: State, j: nat, ev: SocketEvent, p: PeerRec) returns (b: State)
    requires Arises(a) && Sound(a) && !a.w.dead && Offers(a.l, ev) && PollOf(a.w, a.l, ev).state == Progress
    requires Found(a.l, ev).recs == [p]
    requires j < |a.w.insts| && Pollable(a.w.insts[j]) && a.w.insts[j].phase == Parsing
    ensures Do(a, PollBody(j, ev, false)) == Some(b) && Arises(b) && Sound(b)
    ensures b.l == LinkAfter(a.w, a.l, ev) && OneRead(a.w, p, b.w)
  {
    var v := PollSimulated(a.w, a.l, ev);
    OneBrought(a.w, p, v, EventFound(a.w, a.l, ev), PollOf(a.w, a.l, ev).slots, LinkAfter(a.w, a.l, ev));
    var s := Step.Poll(j, Event.Got(1), false);
    OneTaken(a.w, p, v, s);
    b := BodyReadOn(a, j, ev, false, v, s);
  }

  lemma OneTaken(w: World, p: PeerRec, v: World, s: Step)
    requires Core(w) && !w.dead && Enabled(w, Step.Peer(p.inst, p.body)) && v == Take(w, Step.Peer(p.inst, p.body))
    requires s.Poll? && s.ev == Event.Got(1) && s.i < |w.insts|
    requires Pollable(w.insts[s.i]) && w.insts[s.i].phase == Parsing
    ensures Enabled(v, s) && OneRead(w, p, Take(v, s))
  {
    CoreStep(w, Step.Peer(p.inst, p.body));
    PeerKeeps(w, p.inst, p.body);
    StillHolds(v, s.i, Event.Got(1));
    OneReadStep(w, p, v, s);
  }

  lemma BodyReadOn(a: State, j: nat, ev: SocketEvent, complete: bool, v: World, s: Step) returns (b: State)
    requires Arises(a) && Sound(a) && Offers(a.l, ev) && PollOf(a.w, a.l, ev).state == Progress
    requires Exec(a.w, PeerSteps(Found(a.l, ev).recs)) == Some(v) && Shape(v)
    requires s == Step.Poll(j, EventFound(a.w, a.l, ev), complete) && Enabled(v, s)
    ensures Do(a, PollBody(j, ev, complete)) == Some(b) && Arises(b) && Sound(b)
    ensures b == State(Take(v, s), LinkAfter(a.w, a.l, ev))
  {
    StepsAfter(a, ev, v);
    b := PollBodyIs(a, j, ev, EventFound(a.w, a.l, ev), complete, Take(v, s));
    ArisesMore(a, PollBody(j, ev, complete), b);
  }

  lemma OneBrought(w: World, p: PeerRec, v: World, e: Event, slots: Slab, l: Link)
    requires Shape(w) && Brought(w, [p], v, e, slots, l)
    ensures Enabled(w, Step.Peer(p.inst, p.body)) && v == Take(w, Step.Peer(p.inst, p.body))
  {
    OnePeer(w, p, v);
  }

  lemma OneReadStep(w: World, p: PeerRec, v: World, s: Step)
    requires Shape(w) && Enabled(w, Step.Peer(p.inst, p.body)) && v == Take(w, Step.Peer(p.inst, p.body))
    requires s.Poll? && s.ev == Event.Got(1) && s.i < |w.insts|
    requires Pollable(w.insts[s.i]) && w.insts[s.i].phase == Parsing && v.inflight != []
    requires Occupied(Happen(v, s.ev).slots, w.insts[s.i].rid)
    ensures Enabled(v, s) && OneRead(w, p, Take(v, s))
  {
    PeerKeeps(w, p.inst, p.body);
    assert Enabled(v, s);
    OneDelivered(w, p, v);
    PollTaken(v, s);
    ReadAndPolled(w, p, Happen(v, s.ev), s.i);
  }

  lemma ReadAndPolled(w: World, p: PeerRec, h: World, j: nat)
    requires Shape(h) && OneRead(w, p, h) && j < |w.insts| && w.insts[j].phase == Parsing
    requires Occupied(h.slots, w.insts[j].rid)
    ensures OneRead(w, p, PollOne(h, j, false))
  {
    assert InstRead(w.insts[j], p, j, h.insts[j]);
    ParsingPolled(h, j);
  }

  lemma OneDelivered(w: World, p: PeerRec, v: World)
    requires Shape(w) && Enabled(w, Step.Peer(p.inst, p.body)) && v == Take(w, Step.Peer(p.inst, p.body))
    requires v.inflight != []
    ensures OneRead(w, p, Happen(v, Event.Got(1)))
  {
    PeerKeeps(w, p.inst, p.body);
    EventFrame(v, Event.Got(1));
    WireFrame(v, Event.Got(1));
    OwnersKept(v, 1);
    var h := Happen(v, Event.Got(1));
    forall i | 0 <= i < |w.insts| ensures InstRead(w.insts[i], p, i, h.insts[i]) {
      SameInst(v, Event.Got(1), i);
    }
  }

  lemma ParsingPolled(h: World, j: nat)
    requires Shape(h) && j < |h.insts| && h.insts[j].phase == Parsing && Occupied(h.slots, h.insts[j].rid)
    ensures var r := PollOne(h, j, false);
            && r == h.(slots := r.slots, insts := h.insts[j := r.insts[j]])
            && r.insts[j] == h.insts[j].(taken := r.insts[j].taken, heading := r.insts[j].heading,
                                            waiting := r.insts[j].waiting)
  {}

  /** The first request is aborted, and its permit is the only one taken. */
  lemma AbortedFirst(a: State) returns (b: State)
    requires Arises(a) && Sound(a) && a.w.max == 2 && a.w.pending == 0 && |a.w.owner| == 1
    requires |a.w.insts| == 1 && Live(a.w.insts[0])
    ensures Arises(b) && Sound(b) && b.l == a.l && |b.w.insts| == 1 && WasAborted(b.w, 0) && b.w.permits > 0
    ensures b.w.dead == a.w.dead && b.w.epoch == a.w.epoch && b.w.insts[0].epoch == a.w.insts[0].epoch
    ensures b.w.insts[0].peerEnded == a.w.insts[0].peerEnded
  {
    b := BodyDropped(a, 0);
    ArisesMore(a, Local(Step.Drop(0, true)), b);
    CountBound(a.w.slots);
  }

  /** The end record is read before the body is dropped. */
  lemma EndedBeforeHappens() returns (a: State)
    ensures Shows(a, EndedBefore)
  {
    a := OneStarted(2, PLAIN, Written);
    a := PeerWrote(a, EndFor(a.w, 0));
    a := EndRead(a);
    a := AbortedFirst(a);
    AbortedShows(a, EndedBefore);
  }

  lemma EndRead(a: State) returns (b: State)
    requires Arises(a) && Sound(a) && Readable(a.w, a.l) && |a.l.msgs| == 1 && EndMessage(a.l.msgs[0], 0)
    requires a.l.net != [] && |a.w.insts| == 1 && Pollable(a.w.insts[0]) && a.w.insts[0].phase == Parsing
    ensures Arises(b) && Sound(b) && b.l == NEW_LINK && OneRead(a.w, PeerRec(0, EndRequestBody(0, Complete)), b.w)
  {
    ReadWholeNet(a.w, a.l);
    var recs := Found(a.l, Arrived(a.l.net)).recs;
    assert recs == [recs[0]];
    b := PieceRead(a, 0, Arrived(a.l.net), recs[0]);
  }

  // ---------- reading a part ----------

  /** Reading a whole message and a part of the next header. */
  lemma {:induction false} ReadWithin(slots: Slab, m: Message, extra: bytes, msgs: seq<Message>)
    requires Answer(m) && 0 < |extra| < HEADER_LEN && msgs != [] && msgs[0] == m
    ensures var data := EndToEnd.PaddedBytes(m.p) + extra;
            && PollStep(slots, None, [], Arrived(data)).state == Progress
            && PollStep(slots, None, [], Arrived(data)).unread == extra
            && PollStep(slots, None, [], Arrived(data)).saved == None
            && Unpack(None, data, msgs).recs == [PeerRec(m.inst, BodyOf(m))]
  {
    var data := EndToEnd.PaddedBytes(m.p) + extra;
    var f := WholeComes(m, extra);
    var d := DrainNext(None, data, f, None, extra);
    var t := UnpackNext(None, data, msgs, f, None, extra);
    assert d == Drained([], None, extra, false);
    DistributeIsDispatch(slots, None, data);
    DispatchesAll(slots, [f]);
    assert [f] + [] == [f];
  }

  function OutputFor(w: World, i: nat, s: bytes): Message
    requires Shape(w) && i < |w.insts|
  {
    Message(i, EndToEnd.Padded(VERSION_1, Rec(StdOut, IdOf(w, i), s), []))
  }

  lemma ReadIntoHeader(a: State, out: Message, end: Message) returns (b: State)
    requires Arises(a) && Sound(a) && Readable(a.w, a.l) && a.l.saved == None && a.l.msgs == [out, end]
    requires Answer(out) && Answer(end) && a.l.net == EndToEnd.PaddedBytes(out.p) + EndToEnd.PaddedBytes(end.p)
    requires out.inst == 0 && out.p.rec.rtype == StdOut
    requires |a.w.insts| == 1 && Pollable(a.w.insts[0]) && a.w.insts[0].phase == Parsing
    ensures Arises(b) && Sound(b) && b.l.unread != [] && b.l.saved == None
    ensures OneRead(a.w, PeerRec(0, BodyOf(out)), b.w)
  {
    var extra := EndToEnd.PaddedBytes(end.p)[..1];
    var data := EndToEnd.PaddedBytes(out.p) + extra;
    assert data <= a.l.net;
    ReadWithin(a.w.slots, out, extra, a.l.msgs);
    b := PieceRead(a, 0, Arrived(data), PeerRec(0, BodyOf(out)));
  }

  /** A request, and on their way to it an output record and its end record. */
  lemma OutputAndEnd() returns (a: State, out: Message, end: Message)
    ensures Arises(a) && Sound(a) && Readable(a.w, a.l) && a.l.saved == None && a.l.msgs == [out, end]
    ensures Answer(out) && Answer(end) && a.l.net == EndToEnd.PaddedBytes(out.p) + EndToEnd.PaddedBytes(end.p)
    ensures out.inst == 0 && out.p.rec.rtype == StdOut && a.w.owner == [0] && a.w.max == 2 && a.w.pending == 0
    ensures a.w.epoch == 0 && a.w.insts == [Opened(Init(2), 0, PLAIN, Written)]
  {
    var b := OneStarted(2, PLAIN, Written);
    out, end := OutputFor(b.w, 0, [10]), EndFor(b.w, 0);
    a := BothWritten(b, out, end);
  }

  /** A read ends within the header of the awaited end record: what was read of it hides the socket. */
  lemma BufferStuckHappens() returns (a: State)
    ensures Shows(a, BufferStuck)
  {
    var out, end;
    a, out, end := OutputAndEnd();
    a := ReadIntoHeader(a, out, end);
    a := AbortedFirst(a);
    AbortedShows(a, BufferStuck);
  }

  /** Reading an end record without its padding. */
  lemma {:induction false} ReadUnpadded(slots: Slab, m: Message, msgs: seq<Message>)
    requires Answer(m) && m.p.rec.rtype == EndRequest && m.p.pad != [] && msgs == [m]
    ensures var data := HeaderBytes(EndToEnd.PaddedHeader(m.p)) + m.p.rec.payload;
            && data < EndToEnd.PaddedBytes(m.p) && data != []
            && PollStep(slots, None, [], Arrived(data)).state == Progress
            && PollStep(slots, None, [], Arrived(data)).unread == []
            && EndTaken(PollStep(slots, None, [], Arrived(data)).saved)
            && Unpack(None, data, msgs).recs == [PeerRec(m.inst, BodyOf(m))]
  {
    var h := EndToEnd.PaddedHeader(m.p);
    var data := HeaderBytes(h) + m.p.rec.payload;
    var f, s := BodyComes(m);
    var d := DrainNext(None, data, f, s, []);
    var t := UnpackNext(None, data, msgs, f, s, []);
    assert d == Drained([], s, [], false);
    DistributeIsDispatch(slots, None, data);
    DispatchesAll(slots, [f]);
    assert [f] + [] == [f];
  }

  lemma BodyComes(m: Message) returns (f: Fragment, s: Option<Header>)
    requires Answer(m) && m.p.rec.rtype == EndRequest && m.p.pad != []
    ensures var data := HeaderBytes(EndToEnd.PaddedHeader(m.p)) + m.p.rec.payload;
            NextFragment(None, data) == Delivered(f, s, []) && EndTaken(s)
    ensures ParseBody(f.content, f.header.rtype) == Some(BodyOf(m))
  {
    var h := EndToEnd.PaddedHeader(m.p);
    var head, data := HeaderBytes(h), HeaderBytes(h) + m.p.rec.payload;
    HeaderRoundTrip(h, []);
    assert data[..HEADER_LEN] == head + [] && data[HEADER_LEN..] == m.p.rec.payload;
    ParseHeaderPrefix(data);
    f, s := Fragment(h, m.p.rec.payload), Some(h.(contentLength := 0));
    assert m.p.rec.payload[..8] == m.p.rec.payload && m.p.rec.payload[8..] == [];
  }

  /** The end record of another request is read, but not yet its padding. */
  lemma PaddingOwedHappens() returns (a: State)
    ensures Shows(a, PaddingOwed)
  {
    var b, end := PaddedEnd();
    a := ReadAllButPadding(b, end);
    assert ReaderOf(a.w, 1);
    AbortedShows(a, PaddingOwed);
  }

  /** A dropped request, another one, and on its way the padded end record of the other one. */
  lemma PaddedEnd() returns (a: State, end: Message)
    ensures Arises(a) && Sound(a) && Readable(a.w, a.l) && a.l.saved == None && a.l.msgs == [end]
    ensures Answer(end) && a.l.net == EndToEnd.PaddedBytes(end.p) && end.inst == 1 && end.p.pad != []
    ensures end.p.rec.rtype == EndRequest && |a.w.insts| == 2 && WasAborted(a.w, 0)
    ensures a.w.insts[0].epoch == a.w.epoch && !a.w.insts[0].peerEnded && !a.w.jammed
    ensures Pollable(a.w.insts[1]) && a.w.insts[1].phase == Parsing && a.w.insts[1].sending == Ended
  {
    var b := OneDropped(2, true);
    var c := OneMore(b, Idle, Written);
    end := Message(1, EndToEnd.Padded(VERSION_1, EndRec(2, 0, 0), [0]));
    a := PeerWrote(c, end);
  }

  lemma ReadAllButPadding(a: State, end: Message) returns (b: State)
    requires Arises(a) && Sound(a) && Readable(a.w, a.l) && a.l.saved == None && a.l.msgs == [end]
    requires Answer(end) && a.l.net == EndToEnd.PaddedBytes(end.p) && end.inst == 1 && end.p.pad != []
    requires end.p.rec.rtype == EndRequest && |a.w.insts| == 2 && WasAborted(a.w, 0)
    requires Pollable(a.w.insts[1]) && a.w.insts[1].phase == Parsing
    ensures Arises(b) && Sound(b) && b.l.unread == [] && EndTaken(b.l.saved)
    ensures OneRead(a.w, PeerRec(1, BodyOf(end)), b.w) && WasAborted(b.w, 0)
  {
    var data := HeaderBytes(EndToEnd.PaddedHeader(end.p)) + end.p.rec.payload;
    ReadUnpadded(a.w.slots, end, a.l.msgs);
    b := PieceRead(a, 1, Arrived(data), PeerRec(1, BodyOf(end)));
    OtherKept(a, data, b);
  }

  lemma OtherKept(a: State, data: bytes, b: State)
    requires Sound(a) && Do(a, PollBody(1, Arrived(data), false)) == Some(b) && |a.w.insts| == 2 && WasAborted(a.w, 0)
    requires |Found(a.l, Arrived(data)).recs| == 1 && Found(a.l, Arrived(data)).recs[0].inst == 1
    ensures Shape(b.w) && |b.w.insts| > 0 && WasAborted(b.w, 0)
  {
    MoveKept(a, PollBody(1, Arrived(data), false), b, 0);
  }

  /** Each reason is the only one in some state that a course of events in bytes leads to. */
  lemma EveryDoomHappens(d: Doom)
    ensures exists a :: Shows(a, d)
  {
    var a;
    match d {
      case Refusal => a := RefusalHappens();
      case FailedOpening => a := FailedOpeningHappens();
      case LockTaken => a := LockTakenHappens();
      case ConnectionLost => a := ConnectionLostHappens();
      case ConnectionReplaced => a := ConnectionReplacedHappens();
      case EndedBefore => a := EndedBeforeHappens();
      case BufferStuck => a := BufferStuckHappens();
      case PaddingOwed => a := PaddingOwedHappens();
      case NobodyLeft => a := NobodyLeftHappens();
      case SenderJammed => a := SenderJammedHappens();
    }
  }

  // ---------- a body in the wrong order ----------

  /** One output record reaches the only request. */
  lemma OneArrives(w: World, s: bytes, tail: seq<PeerRec>, buf: seq<bytes>) returns (r: World)
    requires Shape(w) && |w.insts| == 1 && w.slots == [Some(FRESH.(buf := buf))] && w.owner == [0]
    requires w.inflight == [PeerRec(0, StdOutBody(s))] + tail && s != [] && w.insts[0].rid == 0
    ensures r == Deliver(w) && |r.insts| == 1 && r.slots == [Some(FRESH.(buf := buf + [s]))] && r.owner == w.owner
    ensures r.inflight == tail && r.dead == w.dead && r.insts[0] == w.insts[0].(delivered := r.insts[0].delivered)
  {
    r := Deliver(w);
    assert w.inflight[1..] == tail;
    assert r.slots[0] == Some(FRESH.(buf := buf + [s]));
  }

  /** Both records are buffered by one poll, which takes the first for the header parser. */
  lemma TwoArrive(w: World) returns (r: World)
    requires Shape(w) && !w.dead && |w.insts| == 1 && w.slots == [Some(FRESH)] && w.owner == [0]
    requires w.inflight == [PeerRec(0, StdOutBody([10, 1])), PeerRec(0, StdOutBody([2]))]
    requires w.insts[0].rid == 0 && w.insts[0].phase == Parsing && w.insts[0].taken == []
    requires w.insts[0].heading == Reading && w.insts[0].sending == Ended
    ensures Enabled(w, Step.Poll(0, Event.Got(2), true)) && r == Take(w, Step.Poll(0, Event.Got(2), true))
    ensures |r.insts| == 1 && r.slots == [Some(FRESH.(buf := [[2]]))] && r.owner == w.owner && !r.dead
    ensures r.insts[0]
         == w.insts[0].(taken := [10, 1], heading := Parsed, waiting := false, delivered := r.insts[0].delivered)
  {
    var second := [PeerRec(0, StdOutBody([2]))];
    assert w.inflight == [PeerRec(0, StdOutBody([10, 1]))] + second && FRESH.(buf := []) == FRESH;
    var a := OneArrives(w, [10, 1], second, []);
    assert a.inflight == second + [] && [] + [[10, 1]] == [[10, 1]];
    var b := OneArrives(a, [2], [], [[10, 1]]);
    assert DeliverMany(a, 1) == DeliverMany(b, 0) == b;
    assert DeliverMany(w, 2) == b && [[10, 1]] + [[2]] == [[10, 1], [2]];
    r := TakesFirst(b);
  }

  lemma TakesFirst(w: World) returns (r: World)
    requires Shape(w) && |w.insts| == 1 && w.slots == [Some(FRESH.(buf := [[10, 1], [2]]))]
    requires w.insts[0].rid == 0 && w.insts[0].phase == Parsing && w.insts[0].taken == []
    requires w.insts[0].heading == Reading && w.insts[0].sending == Ended
    ensures r == PollOne(w, 0, true) && |r.insts| == 1 && r.slots == [Some(FRESH.(buf := [[2]]))]
    ensures r.owner == w.owner && r.dead == w.dead
    ensures r.insts[0] == w.insts[0].(taken := [10, 1], heading := Parsed, waiting := false)
  {
    r := PollOne(w, 0, true);
    var buf: seq<bytes> := [[10, 1], [2]];
    assert buf[1..] == [[2]] && Flatten(buf) != [];
  }

  /** The header was a line end: the byte behind it is handed over, and goes behind the second record. */
  lemma HandsOver(w: World) returns (r: World)
    requires Shape(w) && !w.dead && |w.insts| == 1 && w.slots == [Some(FRESH.(buf := [[2]]))] && w.owner == [0]
    requires w.insts[0].rid == 0 && w.insts[0].phase == Parsing && w.insts[0].taken == [10, 1]
    requires w.insts[0].heading == Parsed && w.insts[0].sending == Ended
    ensures Enabled(w, Step.Handover(0, 1)) && r == Take(w, Step.Handover(0, 1))
    ensures |r.insts| == 1 && r.slots == [Some(FRESH.(buf := [[2], [1]]))] && r.owner == w.owner && !r.dead
    ensures r.insts[0] == w.insts[0].(taken := [10], phase := Returned, head := 1, left := 1, queued := 1)
  {
    r := Take(w, Step.Handover(0, 1));
    HandoverOwn(w, 0, 1);
    var left := w.insts[0].taken[1..];
    assert left == [1] && w.insts[0].taken[..1] == [10] && [[2]] + [[1]] == [[2], [1]];
    assert r.slots[0] == Some(FRESH.(buf := [[2], [1]]));
    FlattenPush([], [2]);
    assert [] + [[2]] == [[2]] && w.slots[0].value.buf == [[2]];
  }

  /** A poll of the returned body takes the front of the queue. */
  lemma YieldsFront(w: World, buf: seq<bytes>) returns (r: World)
    requires Shape(w) && !w.dead && |w.insts| == 1 && w.owner == [0] && w.slots == [Some(FRESH.(buf := buf))]
    requires buf != [] && buf[0] != []
    requires w.insts[0].rid == 0 && w.insts[0].phase == Returned && w.insts[0].sending == Ended
    ensures Enabled(w, Step.Poll(0, Idle, false)) && r == Take(w, Step.Poll(0, Idle, false))
    ensures |r.insts| == 1 && r.slots == [Some(FRESH.(buf := buf[1..]))] && r.owner == w.owner && !r.dead
    ensures r.insts[0] == w.insts[0].(yielded := w.insts[0].yielded + buf[0], waiting := false)
  {
    r := Take(w, Step.Poll(0, Idle, false));
    assert Flatten(buf) == buf[0] + Flatten(buf[1..]);
  }

  lemma TwoPeers(w: World, p: PeerRec, q: PeerRec, v: World) returns (u: World)
    requires Shape(w) && Exec(w, PeerSteps([p, q])) == Some(v)
    ensures Enabled(w, Step.Peer(p.inst, p.body)) && u == Take(w, Step.Peer(p.inst, p.body))
    ensures Enabled(u, Step.Peer(q.inst, q.body)) && v == Take(u, Step.Peer(q.inst, q.body))
  {
    assert PeerSteps([p, q]) == PeerSteps([p]) + [Step.Peer(q.inst, q.body)];
    u := ExecBack(w, PeerSteps([p, q]));
    assert PeerSteps([p, q])[..1] == PeerSteps([p]);
    OnePeer(w, p, u);
  }

  /** Two output records on their way to the only request. */
  lemma TwoSent(w: World, v: World)
    requires Shape(w) && !w.dead && w.inflight == [] && w.insts == [Opened(Init(1), 0, PLAIN, Written)]
    requires Exec(w, PeerSteps([PeerRec(0, StdOutBody([10, 1])), PeerRec(0, StdOutBody([2]))])) == Some(v)
    ensures v == w.(insts := v.insts, inflight := [PeerRec(0, StdOutBody([10, 1])), PeerRec(0, StdOutBody([2]))])
    ensures v.insts == [Opened(Init(1), 0, PLAIN, Written).(sent := [10, 1, 2])]
  {
    var p, q := PeerRec(0, StdOutBody([10, 1])), PeerRec(0, StdOutBody([2]));
    var u := TwoPeers(w, p, q, v);
    PeerKeeps(w, 0, p.body);
    PeerKeeps(u, 0, q.body);
    assert [] + [p] + [q] == [p, q] && [] + [10, 1] + [2] == [10, 1, 2];
  }

  lemma BothFound(a: State, out: Message, more: Message)
    requires Linked(a.w, a.l) && Readable(a.w, a.l) && a.l.saved == None && a.l.msgs == [out, more]
    requires out.inst == 0 && out.p.rec.rtype == StdOut && out.p.rec.payload == [10, 1]
    requires more.inst == 0 && more.p.rec.rtype == StdOut && more.p.rec.payload == [2]
    ensures a.l.net != []
    ensures Found(a.l, Arrived(a.l.net)).recs == [PeerRec(0, StdOutBody([10, 1])), PeerRec(0, StdOutBody([2]))]
  {
    assert [] + a.l.net == a.l.net;
    ReadsMessages(a.l.msgs);
    TwoRecords(out, more);
  }

  lemma TwoRecords(out: Message, more: Message)
    requires Answer(out) && out.inst == 0 && out.p.rec.rtype == StdOut && out.p.rec.payload == [10, 1]
    requires Answer(more) && more.inst == 0 && more.p.rec.rtype == StdOut && more.p.rec.payload == [2]
    ensures RecordsOf([out, more]) == [PeerRec(0, StdOutBody([10, 1])), PeerRec(0, StdOutBody([2]))]
  {}

  /** Both records are read at once. */
  lemma BothRead(a: State, out: Message, more: Message) returns (b: State)
    requires Arises(a) && Sound(a) && Readable(a.w, a.l) && a.l.saved == None && a.l.msgs == [out, more]
    requires out.inst == 0 && out.p.rec.rtype == StdOut && out.p.rec.payload == [10, 1]
    requires more.inst == 0 && more.p.rec.rtype == StdOut && more.p.rec.payload == [2]
    requires a.w.insts == [Opened(Init(1), 0, PLAIN, Written)] && a.w.slots == [Some(FRESH)] && a.w.owner == [0]
    ensures Rests(b) && !b.w.dead && b.w.slots == [Some(FRESH.(buf := [[2]]))] && b.w.owner == [0]
    ensures |b.w.insts| == 1 && HalfParsed(b.w.insts[0])
  {
    BothFound(a, out, more);
    ReadWholeNet(a.w, a.l);
    var v := PollSimulated(a.w, a.l, Arrived(a.l.net));
    TwoSent(a.w, v);
    var r := TwoArrive(v);
    b := BodyReadOn(a, 0, Arrived(a.l.net), true, v, Step.Poll(0, Event.Got(2), true));
  }

  predicate HalfParsed(inst: Inst)
  {
    && inst.rid == 0 && inst.phase == Parsing && inst.heading == Parsed && inst.sending == Ended
    && inst.taken == [10, 1] && inst.yielded == [] && inst.sent == [10, 1, 2]
  }

  lemma TwoOutputs() returns (a: State, out: Message, more: Message)
    ensures Arises(a) && Sound(a) && Readable(a.w, a.l) && a.l.saved == None && a.l.msgs == [out, more]
    ensures out.inst == 0 && out.p.rec.rtype == StdOut && out.p.rec.payload == [10, 1]
    ensures more.inst == 0 && more.p.rec.rtype == StdOut && more.p.rec.payload == [2]
    ensures a.w.insts == [Opened(Init(1), 0, PLAIN, Written)] && a.w.slots == [Some(FRESH)] && a.w.owner == [0]
  {
    var b := OneStarted(1, PLAIN, Written);
    out, more := OutputFor(b.w, 0, [10, 1]), OutputFor(b.w, 0, [2]);
    a := BothWritten(b, out, more);
  }

  /**
   * Two output records that arrive in one read, with the header ending within the first of them: the body is yielded
   * with the second record first.
   */
  lemma HandoverReorders()
    ensures exists a :: Arises(a) && |a.w.insts| == 1 && YieldedSwapped(a.w.insts[0])
  {
    var a, out, more := TwoOutputs();
    var b := BothRead(a, out, more);
    var c := HalfHandedOver(b);
    var d := SwapYielded(c, [[2], [1]]);
  }

  predicate YieldedSwapped(inst: Inst)
  {
    inst.sent == [10, 1, 2] && inst.taken == [10] && inst.yielded == [2, 1]
  }

  lemma HalfHandedOver(a: State) returns (b: State)
    requires Rests(a) && !a.w.dead && a.w.slots == [Some(FRESH.(buf := [[2]]))] && a.w.owner == [0]
    requires |a.w.insts| == 1 && HalfParsed(a.w.insts[0])
    ensures Rests(b) && !b.w.dead && |b.w.insts| == 1 && b.w.owner == [0]
    ensures b.w.slots == [Some(FRESH.(buf := [[2], [1]]))]
    ensures var inst := b.w.insts[0];
            && inst.rid == 0 && inst.phase == Returned && inst.sending == Ended
            && inst.sent == [10, 1, 2] && inst.taken == [10] && inst.yielded == []
  {
    var u := HandsOver(a.w);
    b := Did(a, Step.Handover(0, 1));
  }

  lemma SwapYielded(a: State, buf: seq<bytes>) returns (b: State)
    requires Rests(a) && !a.w.dead && |a.w.insts| == 1 && a.w.owner == [0] && a.w.slots == [Some(FRESH.(buf := buf))]
    requires |buf| == 2 && buf[0] == [2] && buf[1] == [1]
    requires a.w.insts[0].rid == 0 && a.w.insts[0].phase == Returned && a.w.insts[0].sending == Ended
    requires a.w.insts[0].sent == [10, 1, 2] && a.w.insts[0].taken == [10] && a.w.insts[0].yielded == []
    ensures Arises(b) && |b.w.insts| == 1 && YieldedSwapped(b.w.insts[0])
  {
    var c := DidYield(a, buf);
    assert c.w.insts[0].yielded == [2];
    b := DidYield(c, buf[1..]);
    assert b.w.insts[0].yielded == [2] + [1];
  }

  lemma DidYield(a: State, buf: seq<bytes>) returns (b: State)
    requires Rests(a) && !a.w.dead && |a.w.insts| == 1 && a.w.owner == [0] && a.w.slots == [Some(FRESH.(buf := buf))]
    requires buf != [] && buf[0] != []
    requires a.w.insts[0].rid == 0 && a.w.insts[0].phase == Returned && a.w.insts[0].sending == Ended
    ensures Rests(b) && !b.w.dead && |b.w.insts| == 1 && b.w.owner == [0]
    ensures b.w.slots == [Some(FRESH.(buf := buf[1..]))]
    ensures b.w.insts[0] == a.w.insts[0].(yielded := a.w.insts[0].yielded + buf[0], waiting := false)
  {
    var u := YieldsFront(a.w, buf);
    b := Did(a, Step.Poll(0, Idle, false));
  }

  // ---------- input on a connection that does not know its request ----------

  /** The last thing on the wire is input for an ID that has not begun there. */
  ghost predicate StrayInput(w: World)
  {
    && Sized(RecsOf(w.wire))
    && var recs := Deframe(PeerBytes(w));
       recs != [] && recs[|recs| - 1] == Rec(StdIn, 1, [7]) && LastBegin(recs, 1) == None
  }

  /** A request with a body, whose sender goes on after the connection has been replaced for another request. */
  lemma StrayInputHappens()
    ensures exists a :: Arises(a) && StrayInput(a.w)
  {
    var a := SenderLeftBehind();
    var s := SendChunk(0, [7], Written);
    var b := Did(a, s);
    LastOnWire(a.w, s, b.w);
    ArisesSound(b);
    LastIsStray(b.w, |b.w.wire| - 1);
  }

  lemma SenderLeftBehind() returns (a: State)
    ensures Rests(a) && Enabled(a.w, SendChunk(0, [7], Written))
    ensures a.w.insts[0].rid == 0 && a.w.insts[0].epoch < a.w.epoch
  {
    var first := OneStarted(2, Order([], Some(1), false), Written);
    a := OneMore(first, Lost, Written);
  }

  lemma LastOnWire(w: World, s: Step, r: World)
    requires Shape(w) && s == SendChunk(0, [7], Written) && Enabled(w, s) && r == Take(w, s) && w.insts[0].rid == 0
    ensures |r.wire| > 0 && r.wire[|r.wire| - 1] == SentRec(0, Rec(StdIn, 1, [7]))
    ensures r.epoch == w.epoch && |r.insts| == |w.insts| && r.insts[0].epoch == w.insts[0].epoch
  {
    ChunkTaken(w, s);
    OneByte(1);
  }

  lemma OneByte(id: u16)
    ensures FlushRecs(StdIn, id, [7]) == [Rec(StdIn, id, [7])]
  {}

  lemma LastIsStray(w: World, k: nat)
    requires Reachable(w) && Shape(w) && |w.wire| == k + 1 && w.wire[k].rec == Rec(StdIn, 1, [7])
    requires w.wire[k].inst < |w.insts| && w.insts[w.wire[k].inst].epoch < w.epoch
    ensures StrayInput(w)
  {
    PeerBytesParse(w);
    ReachableKeeps(w);
    StrayOnWire(w, k);
    AllOfThem(RecsOf(w.wire));
  }

  lemma AllOfThem(recs: seq<Rec>)
    ensures recs[..|recs|] == recs
  {}

  lemma PeerBytesParse(w: World)
    requires Reachable(w)
    ensures Sized(RecsOf(w.wire)) && Deframe(PeerBytes(w)) == RecsOf(w.wire)
  {
    ReachableKeeps(w);
    PeerReads(w);
  }
}
