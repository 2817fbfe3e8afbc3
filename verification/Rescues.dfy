/** Every slot that is not doomed can still be given back. */
module Rescues {
  import opened Octets
  import opened Records
  import opened Reader
  import opened Framing
  import opened Codec
  import opened Requests
  import opened Connection
  import opened Client
  import opened Ownership
  import opened Delivery
  import opened Senders
  import opened Runs
  import opened Link
  import opened Moves
  import opened Leaks
  import EndToEnd

  /** The slot of request i is free. */
  predicate Gone(a: State, i: nat)
  {
    Shape(a.w) && i < |a.w.insts| && !Holds(a.w, i)
  }

  /** And nobody has it yet. */
  predicate Vacated(a: State, i: nat)
  {
    Shape(a.w) && i < |a.w.insts| && a.w.slots[a.w.insts[i].rid].None?
  }

  /** Some course of events frees the slot of request i. */
  ghost predicate CanBeFreed(a: State, i: nat)
  {
    exists mvs :: Course(a, mvs).Some? && Gone(Course(a, mvs).value, i)
  }

  predicate Without(mvs: seq<Move>, t: nat)
  {
    forall k :: 0 <= k < |mvs| ==> !OwnMove(mvs[k], t)
  }

  /** Some course of events leads from a to b without a move of request t. */
  ghost predicate Leads(a: State, b: State, t: nat)
  {
    exists mvs :: Course(a, mvs) == Some(b) && Without(mvs, t)
  }

  lemma LeadsNowhere(a: State, t: nat)
    ensures Leads(a, a, t)
  {
    assert Course(a, []) == Some(a) && Without([], t);
  }

  lemma LeadsOne(a: State, mv: Move, b: State, t: nat)
    requires Do(a, mv) == Some(b) && !OwnMove(mv, t)
    ensures Leads(a, b, t)
  {
    var one := [mv];
    CourseThen(a, [], a, mv);
    assert [] + one == one && one[0] == mv;
    assert Course(a, one) == Some(b) && Without(one, t);
  }

  lemma LeadsTwice(a: State, b: State, c: State, t: nat)
    requires Leads(a, b, t) && Leads(b, c, t)
    ensures Leads(a, c, t)
  {
    var m :| Course(a, m) == Some(b) && Without(m, t);
    var n :| Course(b, n) == Some(c) && Without(n, t);
    FoldTwice(Go, Some(a), m, n);
    assert Course(a, m + n) == Some(c) && Without(m + n, t);
  }

  lemma LeadsFrees(a: State, b: State, i: nat, t: nat)
    requires Leads(a, b, t) && CanBeFreed(b, i)
    ensures CanBeFreed(a, i)
  {
    var m :| Course(a, m) == Some(b);
    var n :| Course(b, n).Some? && Gone(Course(b, n).value, i);
    FoldTwice(Go, Some(a), m, n);
    assert Course(a, m + n) == Course(b, n);
  }

  lemma LeadsGone(a: State, b: State, i: nat, t: nat)
    requires Leads(a, b, t) && Gone(b, i)
    ensures CanBeFreed(a, i)
  {
    var m :| Course(a, m) == Some(b);
    assert Gone(Course(a, m).value, i);
  }

  // ---------- the end of a connection can always come ----------

  lemma FaultLoses(a: State)
    requires Sound(a)
    ensures Offers(a.l, Fault) && PollOf(a.w, a.l, Fault).state in {Closed, Failed}
    ensures Found(a.l, Fault).recs == [] && EventFound(a.w, a.l, Fault) == Lost
  {
    if a.l.unread != [] {
      NothingDispatched(a.w.slots, a.l.saved, a.l.unread);
    }
    NothingFound(a.w, a.l, Fault);
  }

  lemma LostThen(a: State, s: Step)
    requires Sound(a) && Enabled(a.w, s)
    ensures PollThen(a, Fault, s) == Some(Take(a.w, s))
  {
    FaultLoses(a);
    NothingFed(a.w);
  }

  lemma LossPolled(a: State, i: nat, complete: bool) returns (b: State)
    requires Sound(a) && i < |a.w.insts| && Pollable(a.w.insts[i])
    ensures Do(a, PollBody(i, Fault, complete)) == Some(b) && Sound(b)
    ensures b.w == Take(a.w, Step.Poll(i, Lost, complete))
  {
    FaultLoses(a);
    LostThen(a, Step.Poll(i, Lost, complete));
    b := PollBodyIs(a, i, Fault, Lost, complete, Take(a.w, Step.Poll(i, Lost, complete)));
  }

  // ---------- a body that can be read to its end ----------

  /** Polling a returned body on a lost connection: what is buffered becomes less, or the slot is freed. */
  lemma LostPoll(w: World, i: nat)
    requires Flow(w) && i < |w.insts| && w.insts[i].phase == Returned && w.insts[i].sending == Ended && Holds(w, i)
    ensures Enabled(w, Step.Poll(i, Lost, false))
    ensures var r, x := Take(w, Step.Poll(i, Lost, false)), w.insts[i].rid;
            && i < |r.insts| && r.insts[i].rid == x && (!Holds(r, i) ==> r.slots[x].None?)
            && (Holds(r, i) ==>
                  && r.insts[i].phase == Returned && r.insts[i].sending == Ended
                  && |r.slots[x].value.buf| < |w.slots[x].value.buf|)
  {
    var l := Lose(w);
    assert SlotOk(w, w.insts[i].rid);
    CoreLose(w);
    PollFirst(l, i);
  }

  lemma PollFirst(w: World, i: nat)
    requires Shape(w) && i < |w.insts| && w.insts[i].phase == Returned && Holds(w, i)
    requires w.slots[w.insts[i].rid].value.ended
    ensures var r, x := PollOne(w, i, false), w.insts[i].rid;
            && r.insts[i].rid == x && (!Holds(r, i) ==> r.slots[x].None?)
            && (Holds(r, i) ==> r.insts[i].phase == Returned && r.insts[i].sending == w.insts[i].sending
                                && |r.slots[x].value.buf| < |w.slots[x].value.buf|)
  {}

  lemma {:induction false} ReturnedFrees(a: State, i: nat, t: nat) returns (b: State)
    requires Sound(a) && i < |a.w.insts| && a.w.insts[i].phase == Returned && a.w.insts[i].sending == Ended
    requires Holds(a.w, i) && i != t
    ensures Leads(a, b, t) && Sound(b) && Vacated(b, i)
    decreases |a.w.slots[a.w.insts[i].rid].value.buf|
  {
    LostPoll(a.w, i);
    var c := LossPolled(a, i, false);
    LeadsOne(a, PollBody(i, Fault, false), c, t);
    b := c;
    if Holds(c.w, i) {
      b := ReturnedFrees(c, i, t);
      LeadsTwice(a, c, b, t);
    }
  }

  /** The header counts as complete, or as cut off, at the latest when the connection is lost. */
  lemma LostParse(w: World, i: nat)
    requires Flow(w) && i < |w.insts| && w.insts[i].phase == Parsing && Pollable(w.insts[i]) && Holds(w, i)
    ensures Enabled(w, Step.Poll(i, Lost, true))
    ensures var r := Take(w, Step.Poll(i, Lost, true));
            && i < |r.insts| && Holds(r, i)
            && r.insts[i].phase == Parsing && r.insts[i].heading != Reading && r.insts[i].sending == w.insts[i].sending
  {
    var l := Lose(w);
    assert SlotOk(w, w.insts[i].rid);
    ParsePoll(l, i);
  }

  lemma ParsePoll(w: World, i: nat)
    requires Shape(w) && i < |w.insts| && w.insts[i].phase == Parsing && Holds(w, i)
    requires w.slots[w.insts[i].rid].value.ended
    ensures var r := PollOne(w, i, true);
            && Holds(r, i) && r.insts[i].phase == Parsing && r.insts[i].heading != Reading
            && r.insts[i].sending == w.insts[i].sending
  {}

  /** A body whose header is complete is handed over. */
  lemma HandedOver(a: State, i: nat) returns (s: Step, b: State)
    requires Sound(a) && i < |a.w.insts| && a.w.insts[i].phase == Parsing && a.w.insts[i].heading != Reading
    requires Forwarded(a.w.insts[i])
    ensures Own(s, i) && s.Handover? && Do(a, Local(s)) == Some(b) && Sound(b) && b.l == a.l && b.w == Take(a.w, s)
    ensures i < |b.w.insts| && b.w.insts[i].phase == Returned && b.w.insts[i].sending == a.w.insts[i].sending
    ensures Holds(b.w, i)
  {
    assert InstOk(a.w, i);
    s := Step.Handover(i, |a.w.insts[i].taken|);
    b := LocalSound(a, s);
    HandoverOwn(a.w, i, |a.w.insts[i].taken|);
  }

  lemma ParsingFrees(a: State, i: nat, t: nat) returns (b: State)
    requires Sound(a) && i < |a.w.insts| && a.w.insts[i].phase == Parsing && a.w.insts[i].sending == Ended && i != t
    ensures Leads(a, b, t) && Sound(b) && Vacated(b, i)
  {
    assert InstOk(a.w, i);
    if a.w.insts[i].heading == Reading {
      LostParse(a.w, i);
      var c := LossPolled(a, i, true);
      LeadsOne(a, PollBody(i, Fault, true), c, t);
      b := HandedFrees(c, i, t);
      LeadsTwice(a, c, b, t);
    } else {
      b := HandedFrees(a, i, t);
    }
  }

  lemma HandedFrees(a: State, i: nat, t: nat) returns (b: State)
    requires Sound(a) && i < |a.w.insts| && a.w.insts[i].phase == Parsing && a.w.insts[i].heading != Reading
    requires a.w.insts[i].sending == Ended && i != t
    ensures Leads(a, b, t) && Sound(b) && Vacated(b, i)
  {
    var s, c := HandedOver(a, i);
    LeadsOne(a, Local(s), c, t);
    b := ReturnedFrees(c, i, t);
    LeadsTwice(a, c, b, t);
  }

  lemma EndedFrees(a: State, i: nat, t: nat) returns (b: State)
    requires Sound(a) && i < |a.w.insts| && Live(a.w.insts[i]) && a.w.insts[i].sending == Ended && i != t
    ensures Leads(a, b, t) && Sound(b) && Vacated(b, i)
  {
    assert InstOk(a.w, i);
    if a.w.insts[i].phase == Parsing {
      b := ParsingFrees(a, i, t);
    } else {
      b := ReturnedFrees(a, i, t);
    }
  }

  // ---------- a request body that can be sent to its end ----------

  function MissingOf(inst: Inst): nat
  {
    Missing(inst.announced, |Flatten(inst.input)|)
  }

  /** A chunk with all that is missing. */
  lemma AllMissing(inst: Inst) returns (data: bytes)
    ensures |data| == MissingOf(inst) && MissingOf(inst.(input := inst.input + [data])) == 0
  {
    var m := MissingOf(inst);
    data := seq(m, k => 0);
    FlattenPush(inst.input, data);
    MissingStep(inst.announced, |Flatten(inst.input)|, m);
  }

  /** Only request i has gone on, as a sender. */
  predicate SentOnly(a: State, b: State, i: nat)
  {
    && b.l == a.l && i < |a.w.insts| == |b.w.insts|
    && b.w == a.w.(insts := b.w.insts, wire := b.w.wire)
    && (forall j :: 0 <= j < |a.w.insts| && j != i ==> b.w.insts[j] == a.w.insts[j])
    && b.w.insts[i] == a.w.insts[i].(input := b.w.insts[i].input, sending := b.w.insts[i].sending)
  }

  lemma RestSent(a: State, i: nat, t: nat) returns (b: State)
    requires Sound(a) && i < |a.w.insts| && a.w.insts[i].sending == Open && !a.w.jammed && i != t
    ensures Leads(a, b, t) && Sound(b) && SentOnly(a, b, i)
    ensures b.w.insts[i].sending == Open && MissingOf(b.w.insts[i]) == 0
  {
    var data := AllMissing(a.w.insts[i]);
    b := a;
    LeadsNowhere(a, t);
    if data != [] {
      var s := SendChunk(i, data, Written);
      b := LocalSound(a, s);
      LeadsOne(a, Local(s), b, t);
    }
  }

  lemma AllSent(a: State, i: nat, t: nat) returns (b: State)
    requires Sound(a) && i < |a.w.insts| && a.w.insts[i].sending == Open && !a.w.jammed && i != t
    ensures Leads(a, b, t) && Sound(b) && SentOnly(a, b, i) && b.w.insts[i].sending == Ended
  {
    var c := RestSent(a, i, t);
    var s := SendEnd(i, Written);
    b := LocalSound(c, s);
    EndingTaken(c.w, s);
    LeadsOne(c, Local(s), b, t);
    LeadsTwice(a, c, b, t);
  }

  /** A body whose request body can be sent to its end can be read to its end. */
  lemma ReadyFrees(a: State, i: nat, t: nat) returns (b: State)
    requires Sound(a) && Finishes(a.w, i) && i != t
    ensures Leads(a, b, t) && Sound(b) && Vacated(b, i)
  {
    if a.w.insts[i].sending == Ended {
      b := EndedFrees(a, i, t);
    } else {
      var c := AllSent(a, i, t);
      b := EndedFrees(c, i, t);
      LeadsTwice(a, c, b, t);
    }
  }

  // ---------- an end record can be read ----------

  /** An aborted request whose end record is on its way. */
  predicate Expecting(w: World, i: nat)
    requires Shape(w)
  {
    i < |w.insts| && WasAborted(w, i) && !w.dead && exists k :: 0 <= k < |w.inflight| && EndOfInst(w.inflight[k], i)
  }

  /** The first record in flight is the awaited end record, or it leaves the request waiting. */
  lemma ExpectingDeliver(w: World, i: nat)
    requires Flow(w) && Expecting(w, i)
    ensures w.inflight != [] && i < |Deliver(w).insts|
    ensures !Holds(Deliver(w), i) || Expecting(Deliver(w), i)
  {
    var m :| 0 <= m < |w.inflight| && EndOfInst(w.inflight[m], i);
    assert QueueOk(w, 0) && SlotOk(w, w.insts[i].rid);
    DeliverOwn(w);
    if m > 0 {
      assert EndOfInst(Deliver(w).inflight[m - 1], i);
      DeliverElse(w, i);
    }
  }

  lemma DeliverElse(w: World, i: nat)
    requires Flow(w) && Expecting(w, i) && w.inflight != []
    ensures i < |Deliver(w).insts| && (Holds(Deliver(w), i) ==> WasAborted(Deliver(w), i))
  {
    assert QueueOk(w, 0);
    DeliverOwn(w);
  }

  lemma {:induction false} AllDelivered(w: World, i: nat)
    requires Flow(w) && Expecting(w, i)
    ensures var h := DeliverMany(w, |w.inflight|); i < |h.insts| && !Holds(h, i)
    decreases |w.inflight|
  {
    ExpectingDeliver(w, i);
    FlowDeliver(w);
    var r := Deliver(w);
    assert DeliverMany(w, |w.inflight|) == DeliverMany(r, |r.inflight|);
    if Holds(r, i) {
      AllDelivered(r, i);
    } else {
      SinceMany(r, |r.inflight|, i);
    }
  }

  predicate EndMessage(m: Message, i: nat)
  {
    m.inst == i && m.p.rec.rtype == EndRequest
  }

  /** An aborted request whose end record can be read. */
  predicate Awaiting(a: State, i: nat)
  {
    && Sound(a) && Readable(a.w, a.l) && i < |a.w.insts| && WasAborted(a.w, i)
    && exists k :: 0 <= k < |a.l.msgs| && EndMessage(a.l.msgs[k], i)
  }

  lemma NetNotEmpty(a: State, i: nat)
    requires Awaiting(a, i)
    ensures a.l.net != []
  {
    assert [] + a.l.net == a.l.net;
  }

  /** Reading all that is on its way frees the slot. */
  lemma AllRead(a: State, i: nat) returns (v: World, h: World)
    requires Awaiting(a, i)
    ensures Offers(a.l, Arrived(a.l.net)) && PollOf(a.w, a.l, Arrived(a.l.net)).state == Progress
    ensures var e := EventFound(a.w, a.l, Arrived(a.l.net));
            && Between(a.w, v, e, h, PollOf(a.w, a.l, Arrived(a.l.net)).slots) && Flow(v) && e.Got?
            && i < |h.insts| && h.slots[h.insts[i].rid].None?
    ensures forall s :: Enabled(v, s) ==> PollThen(a, Arrived(a.l.net), s) == Some(Take(v, s))
  {
    NetNotEmpty(a, i);
    ReadWholeNet(a.w, a.l);
    var e;
    v, e, h := ConnectionPolled(a, Arrived(a.l.net));
    EndArrives(a, v, i);
    AllDelivered(v, i);
    OwnersKept(v, |v.inflight|);
  }

  lemma {:induction false} OwnersKept(w: World, k: nat)
    requires Shape(w) && k <= |w.inflight|
    ensures DeliverMany(w, k).owner == w.owner
    decreases k
  {
    if k > 0 {
      OwnersKept(Deliver(w), k - 1);
    }
  }

  lemma EndArrives(a: State, v: World, i: nat)
    requires Awaiting(a, i) && v == a.w.(insts := v.insts, inflight := v.inflight) && Shape(v)
    requires Brings(v.inflight, a.l.msgs) && |v.insts| == |a.w.insts| && SameBody(a.w.insts[i], v.insts[i])
    ensures Expecting(v, i)
  {
    var k :| 0 <= k < |a.l.msgs| && EndMessage(a.l.msgs[k], i);
    assert EndOfInst(v.inflight[k], i);
  }

  /** A body that can be polled reads it. */
  lemma BodyReads(a: State, i: nat, j: nat) returns (b: State)
    requires Awaiting(a, i) && j < |a.w.insts| && Pollable(a.w.insts[j])
    ensures Do(a, PollBody(j, Arrived(a.l.net), false)) == Some(b) && Sound(b) && Vacated(b, i)
  {
    var v, h := AllRead(a, i);
    var e := EventFound(a.w, a.l, Arrived(a.l.net));
    var s := Step.Poll(j, e, false);
    PollTaken(v, s);
    b := PollBodyIs(a, j, Arrived(a.l.net), e, false, Take(v, s));
    CoreHappen(v, e);
    VacatedPoll(h, j, i);
  }

  lemma VacatedPoll(h: World, j: nat, i: nat)
    requires Core(h) && j < |h.insts| && Live(h.insts[j]) && i < |h.insts| && h.slots[h.insts[i].rid].None?
    ensures var r := PollOne(h, j, false); i < |r.insts| && r.slots[r.insts[i].rid].None?
  {
    assert InstOk(h, j);
    PollOwn(h, j, false);
  }

  lemma SomeVacant(slots: Slab) returns (x: nat)
    ensures Vacant(slots, x)
  {
    x := |slots|;
    if y :| 0 <= y < |slots| && slots[y].None? {
      x := y;
    }
  }

  /** Any write may fail at once. */
  const BREAK := Torn(0, [])

  lemma BreaksOpening(w: World, x: nat)
    requires x + 1 < 0x1_0000
    ensures Writable(w, OrderRecs(x + 1, PLAIN), BREAK)
  {}

  /** And so does a request that has its permit: it polls the connection before it begins. */
  lemma RequestReads(a: State, i: nat) returns (x: nat, b: State)
    requires Awaiting(a, i) && a.w.pending > 0
    ensures Do(a, Begin(Arrived(a.l.net), x, PLAIN, BREAK)) == Some(b) && Sound(b) && Gone(b, i)
  {
    var v, h := AllRead(a, i);
    var e := EventFound(a.w, a.l, Arrived(a.l.net));
    x := SomeVacant(h.slots);
    RoomFor(v, e, x);
    BreaksOpening(Prepared(v, e), x);
    b := BeginsAt(a, Arrived(a.l.net), v, e, h, x, PLAIN, BREAK);
    EventFrame(v, e);
    InsertChanges(h, x, PLAIN, BREAK);
  }

  /** A body that will poll the connection is brought to do so, and nothing else changes for those who wait. */
  lemma ReaderComes(a: State, i: nat, j: nat, t: nat) returns (b: State)
    requires Awaiting(a, i) && ReaderOf(a.w, j) && j != t
    ensures Leads(a, b, t) && Awaiting(b, i) && j < |b.w.insts| && Pollable(b.w.insts[j])
  {
    assert InstOk(a.w, j) && SlotOk(a.w, a.w.insts[i].rid);
    if Pollable(a.w.insts[j]) || a.w.insts[j].sending == Ended {
      b := HeaderEnds(a, i, j, t);
    } else {
      var c := AllSent(a, j, t);
      SentAwaiting(a, c, i, j);
      b := HeaderEnds(c, i, j, t);
      LeadsTwice(a, c, b, t);
    }
  }

  lemma HeaderEnds(a: State, i: nat, j: nat, t: nat) returns (b: State)
    requires Awaiting(a, i) && j < |a.w.insts| && i != j && j != t
    requires Pollable(a.w.insts[j]) || (Live(a.w.insts[j]) && a.w.insts[j].sending == Ended)
    ensures Leads(a, b, t) && Awaiting(b, i) && j < |b.w.insts| && Pollable(b.w.insts[j])
  {
    if Pollable(a.w.insts[j]) {
      b := a;
      LeadsNowhere(a, t);
    } else {
      var s;
      s, b := HandedOver(a, j);
      LeadsOne(a, Local(s), b, t);
      HandedAwaiting(a, s, b, i, j);
    }
  }

  lemma SentAwaiting(a: State, b: State, i: nat, j: nat)
    requires Awaiting(a, i) && Sound(b) && SentOnly(a, b, j) && i != j
    ensures Awaiting(b, i)
  {}

  lemma HandedAwaiting(a: State, s: Step, b: State, i: nat, j: nat)
    requires Awaiting(a, i) && Sound(b) && s.Handover? && s.i == j && i != j && Enabled(a.w, s)
    requires b.l == a.l && b.w == Take(a.w, s)
    ensures Awaiting(b, i)
  {
    KeptHandover(a.w, j, s.head, i);
  }

  /** Somebody reads the end record. */
  lemma AwaitingFrees(a: State, i: nat)
    requires Awaiting(a, i) && !Deserted(a.w)
    ensures CanBeFreed(a, i)
  {
    if a.w.pending > 0 {
      var x, b := RequestReads(a, i);
      LeadsOne(a, Begin(Arrived(a.l.net), x, PLAIN, BREAK), b, i);
      LeadsGone(a, b, i, i);
    } else if a.w.permits > 0 {
      PermitReads(a, i);
    } else {
      var j :| ReaderOf(a.w, j);
      assert SlotOk(a.w, a.w.insts[i].rid);
      var b := ReaderComes(a, i, j, i);
      var c := BodyReads(b, i, j);
      LeadsOne(b, PollBody(j, Arrived(b.l.net), false), c, i);
      LeadsTwice(a, b, c, i);
      LeadsGone(a, c, i, i);
    }
  }

  lemma PermitReads(a: State, i: nat)
    requires Awaiting(a, i) && a.w.permits > 0
    ensures CanBeFreed(a, i)
  {
    var b := LocalSound(a, Acquire);
    LeadsOne(a, Local(Acquire), b, i);
    var x, c := RequestReads(b, i);
    LeadsOne(b, Begin(Arrived(b.l.net), x, PLAIN, BREAK), c, i);
    LeadsTwice(a, b, c, i);
    LeadsGone(a, c, i, i);
  }

  // ---------- the end record of a forsaken request ----------

  function EndFor(w: World, i: nat): Message
    requires Shape(w) && i < |w.insts|
  {
    Message(i, EndToEnd.Padded(VERSION_1, EndRec(IdOf(w, i), 0, 0), []))
  }

  /** The peer writes the end record, unless it has already. */
  lemma EndComes(a: State, i: nat, t: nat) returns (b: State)
    requires Sound(a) && i < |a.w.insts| && WasAborted(a.w, i) && !Hopeless(a, i)
    ensures Leads(a, b, t) && Awaiting(b, i) && b.w == a.w
  {
    if k :| 0 <= k < |a.l.msgs| && EndMessage(a.l.msgs[k], i) {
      b := a;
      LeadsNowhere(a, t);
    } else {
      b := EndWritten(a, i);
      LeadsOne(a, PeerSends(EndFor(a.w, i)), b, t);
    }
  }

  lemma EndWritten(a: State, i: nat) returns (b: State)
    requires Sound(a) && i < |a.w.insts| && WasAborted(a.w, i) && !Hopeless(a, i)
    requires forall k :: 0 <= k < |a.l.msgs| ==> !EndMessage(a.l.msgs[k], i)
    ensures Do(a, PeerSends(EndFor(a.w, i))) == Some(b) && Awaiting(b, i) && b.w == a.w
  {
    var m := EndFor(a.w, i);
    assert MayAnswer(a.w, a.l, m) by {
      forall k | 0 <= k < |a.l.msgs| && a.l.msgs[k].p.rec.rtype == EndRequest ensures a.l.msgs[k].inst != i {
        assert !EndMessage(a.l.msgs[k], i);
      }
    }
    b := State(a.w, a.l.(net := a.l.net + EndToEnd.PaddedBytes(m.p), msgs := a.l.msgs + [m]));
    MoveSound(a, PeerSends(m), b);
    assert EndMessage(b.l.msgs[|a.l.msgs|], i);
  }

  /** A body is dropped while the mutex is free. */
  lemma BodyDropped(a: State, i: nat) returns (b: State)
    requires Sound(a) && i < |a.w.insts| && Live(a.w.insts[i])
    ensures Do(a, Local(Step.Drop(i, true))) == Some(b) && Sound(b) && b.l == a.l
    ensures |b.w.insts| == |a.w.insts| && WasAborted(b.w, i) && SameRequest(a.w.insts[i], b.w.insts[i])
    ensures b.w.insts[i].peerEnded == a.w.insts[i].peerEnded
    ensures forall j :: 0 <= j < |a.w.insts| && j != i ==> b.w.insts[j] == a.w.insts[j]
    ensures b.w == a.w.(slots := b.w.slots, insts := b.w.insts)
  {
    b := LocalSound(a, Step.Drop(i, true));
    BodyAborted(a.w, i, true);
  }

  lemma ForsakenFrees(a: State, i: nat)
    requires Sound(a) && i < |a.w.insts| && Forsaken(a.w, i) && !Hopeless(a, i) && !Deserted(a.w)
    ensures CanBeFreed(a, i)
  {
    if Live(a.w.insts[i]) {
      var b := ForsakenDropped(a, i);
      AbortedFrees(b, i);
      LeadsOne(a, Local(Step.Drop(i, true)), b, i + 1);
      LeadsFrees(a, b, i, i + 1);
    } else {
      AbortedFrees(a, i);
    }
  }

  /** Dropping its body takes nobody away who polls the connection. */
  lemma ForsakenDropped(a: State, i: nat) returns (b: State)
    requires Sound(a) && i < |a.w.insts| && Live(a.w.insts[i]) && Forsaken(a.w, i)
    requires !Hopeless(a, i) && !Deserted(a.w)
    ensures Do(a, Local(Step.Drop(i, true))) == Some(b) && Sound(b)
    ensures i < |b.w.insts| && WasAborted(b.w, i) && !Hopeless(b, i) && !Deserted(b.w)
  {
    b := BodyDropped(a, i);
    if Full(a.w) {
      var j :| ReaderOf(a.w, j);
      assert j != i && ReaderOf(b.w, j);
    }
  }

  lemma AbortedFrees(a: State, i: nat)
    requires Sound(a) && i < |a.w.insts| && WasAborted(a.w, i) && !Hopeless(a, i) && !Deserted(a.w)
    ensures CanBeFreed(a, i)
  {
    var b := EndComes(a, i, i);
    AwaitingFrees(b, i);
    LeadsFrees(a, b, i, i);
  }

  // ---------- a jammed transport is replaced ----------

  lemma LossBegun(a: State, x: nat) returns (b: State)
    requires Sound(a) && a.w.pending > 0 && Vacant(Lose(a.w).slots, x)
    ensures Do(a, Begin(Fault, x, PLAIN, Written)) == Some(b) && Sound(b) && !b.w.jammed
  {
    FaultLoses(a);
    RoomFor(a.w, Lost, x);
    var s := Step.Start(Lost, x, PLAIN, Written);
    assert Enabled(a.w, s);
    LostThen(a, s);
    b := BeginIs(a, Fault, Lost, x, PLAIN, Written, Take(a.w, s));
  }

  /** A request that has its permit finds the connection lost, and begins on a new one: the sender can go on. */
  lemma RenewedFrees(a: State, i: nat)
    requires Sound(a) && i < |a.w.insts| && Live(a.w.insts[i]) && a.w.insts[i].sending == Open && a.w.pending > 0
    ensures CanBeFreed(a, i)
  {
    var x := SomeVacant(Lose(a.w).slots);
    var b := LossBegun(a, x);
    FaultLoses(a);
    assert InstOk(a.w, i) && SlotOk(a.w, a.w.insts[i].rid);
    MoveKept(a, Begin(Fault, x, PLAIN, Written), b, i);
    LeadsOne(a, Begin(Fault, x, PLAIN, Written), b, i);
    var c := ReadyFrees(b, i, i + 1);
    LeadsGone(b, c, i, i + 1);
    LeadsFrees(a, b, i, i);
  }

  lemma RoomFrees(a: State, i: nat)
    requires Sound(a) && i < |a.w.insts| && Live(a.w.insts[i]) && a.w.insts[i].sending == Open && !Full(a.w)
    ensures CanBeFreed(a, i)
  {
    if a.w.pending > 0 {
      RenewedFrees(a, i);
    } else {
      var b := LocalSound(a, Acquire);
      LeadsOne(a, Local(Acquire), b, i);
      RenewedFrees(b, i);
      LeadsFrees(a, b, i, i);
    }
  }

  lemma OneVacant(slots: Slab, x: nat)
    requires x < |slots| && slots[x].None?
    ensures Count(slots) < |slots|
  {
    CountBound(slots);
  }

  /** Once a slot is free there is a permit. */
  lemma VacatedFrees(a: State, k: nat, i: nat)
    requires Sound(a) && Vacated(a, k) && i < |a.w.insts| && Live(a.w.insts[i]) && a.w.insts[i].sending == Open
    ensures CanBeFreed(a, i)
  {
    OneVacant(a.w.slots, a.w.insts[k].rid);
    RoomFrees(a, i);
  }

  /** What others do leaves a body and its sender alone. */
  lemma {:induction false} OpenStays(a: State, mvs: seq<Move>, i: nat)
    requires Sound(a) && i < |a.w.insts| && Live(a.w.insts[i]) && a.w.insts[i].sending == Open
    requires Course(a, mvs).Some? && Without(mvs, i)
    ensures var b := Course(a, mvs).value;
            Sound(b) && i < |b.w.insts| && Live(b.w.insts[i]) && b.w.insts[i].sending == Open
    decreases |mvs|
  {
    if mvs != [] {
      var n := |mvs| - 1;
      var c := CourseBack(a, mvs);
      OpenStays(a, mvs[..n], i);
      OpenKept(c, mvs[n], Course(a, mvs).value, i);
    }
  }

  lemma OpenKept(a: State, mv: Move, b: State, i: nat)
    requires Sound(a) && Do(a, mv) == Some(b) && !OwnMove(mv, i)
    requires i < |a.w.insts| && Live(a.w.insts[i]) && a.w.insts[i].sending == Open
    ensures Sound(b) && i < |b.w.insts| && Live(b.w.insts[i]) && b.w.insts[i].sending == Open
  {
    MoveSound(a, mv, b);
    assert InstOk(a.w, i) && SlotOk(a.w, a.w.insts[i].rid);
    MoveKept(a, mv, b, i);
  }

  /** Another body can be read to its end, which gives a permit back. */
  lemma OtherFrees(a: State, j: nat, i: nat)
    requires Sound(a) && Finishes(a.w, j) && i != j
    requires i < |a.w.insts| && Live(a.w.insts[i]) && a.w.insts[i].sending == Open
    ensures CanBeFreed(a, i)
  {
    var b := ReadyFrees(a, j, i);
    var mvs :| Course(a, mvs) == Some(b) && Without(mvs, i);
    OpenStays(a, mvs, i);
    VacatedFrees(b, j, i);
    LeadsFrees(a, b, i, i);
  }

  /** A request that its end record can free comes to wait for it. */
  lemma EndableAwaits(a: State, k: nat, t: nat) returns (b: State)
    requires Sound(a) && Readable(a.w, a.l) && Endable(a.w, k) && k != t
    ensures Leads(a, b, t) && Awaiting(b, k)
    ensures |b.w.insts| == |a.w.insts| && forall i :: 0 <= i < |a.w.insts| && i != k ==> b.w.insts[i] == a.w.insts[i]
  {
    if Live(a.w.insts[k]) {
      var c := BodyDropped(a, k);
      LeadsOne(a, Local(Step.Drop(k, true)), c, t);
      b := EndComes(c, k, t);
      LeadsTwice(a, c, b, t);
    } else {
      b := EndComes(a, k, t);
    }
  }

  /** The end record of another request can be read, which gives a permit back; or that of this one, after a drop. */
  lemma ReaderFrees(a: State, j: nat, k: nat, i: nat)
    requires Sound(a) && Readable(a.w, a.l) && j < |a.w.insts| && Pollable(a.w.insts[j]) && Endable(a.w, k) && j != k
    requires i < |a.w.insts| && Live(a.w.insts[i]) && a.w.insts[i].sending == Open
    ensures CanBeFreed(a, i)
  {
    var t := j + k + 1;
    var b := EndableAwaits(a, k, t);
    var c := BodyReads(b, k, j);
    LeadsOne(b, PollBody(j, Arrived(b.l.net), false), c, t);
    LeadsTwice(a, b, c, t);
    if k == i {
      LeadsGone(a, c, i, t);
    } else {
      PolledOpen(b, j, c, i);
      VacatedFrees(c, k, i);
      LeadsFrees(a, c, i, t);
    }
  }

  /** A body that polls for its header keeps its sender. */
  lemma PolledOpen(a: State, j: nat, b: State, i: nat)
    requires Sound(a) && Do(a, PollBody(j, Arrived(a.l.net), false)) == Some(b)
    requires i < |a.w.insts| && Live(a.w.insts[i]) && a.w.insts[i].sending == Open
    ensures i < |b.w.insts| && Live(b.w.insts[i]) && b.w.insts[i].sending == Open
  {
    var mv := PollBody(j, Arrived(a.l.net), false);
    if i != j {
      OpenKept(a, mv, b, i);
    } else {
      var v := InSteps(a, mv, b);
      HeaderPolled(v, StepOf(a, mv), i);
    }
  }

  lemma HeaderPolled(v: World, s: Step, i: nat)
    requires Core(v) && s.Poll? && s.i == i && Enabled(v, s) && v.insts[i].sending == Open
    ensures var r := Take(v, s); i < |r.insts| && Live(r.insts[i]) && r.insts[i].sending == Open
  {
    SameInst(v, s.ev, i);
    CoreHappen(v, s.ev);
    PollTaken(v, s);
    assert InstOk(Happen(v, s.ev), i);
  }

  lemma JammedFrees(a: State, i: nat)
    requires Sound(a) && i < |a.w.insts| && Live(a.w.insts[i]) && a.w.insts[i].sending == Open
    requires a.w.jammed && !Blocked(a)
    ensures CanBeFreed(a, i)
  {
    if !Full(a.w) {
      RoomFrees(a, i);
    } else if j: nat :| Finishes(a.w, j) {
      OtherFrees(a, j, i);
    } else {
      var j, k :| ReaderOf(a.w, j) && Endable(a.w, k) && j != k;
      assert !Finishes(a.w, j);
      ReaderFrees(a, j, k, i);
    }
  }

  // ---------- exactly the doomed slots are lost ----------

  lemma UndoomedFrees(a: State, i: nat)
    requires Sound(a) && i < |a.w.insts| && Holds(a.w, i) && !Doomed(a, i)
    ensures CanBeFreed(a, i)
  {
    var inst := a.w.insts[i];
    assert SlotOk(a.w, inst.rid);
    assert !Because(a, i, Refusal) && !Because(a, i, FailedOpening) && !Because(a, i, LockTaken);
    if Forsaken(a.w, i) {
      if Hopeless(a, i) {
        HopelessDoomed(a, i);
      }
      assert !Because(a, i, NobodyLeft);
      ForsakenFrees(a, i);
    } else if Finishes(a.w, i) {
      var b := ReadyFrees(a, i, i + 1);
      LeadsGone(a, b, i, i + 1);
    } else {
      assert !Because(a, i, SenderJammed);
      JammedFrees(a, i);
    }
  }

  /**
   * Slots are given back: after every course of events in bytes, a slot that is taken can still be given back by some
   * further course exactly if it is not doomed.
   */
  lemma FreedUnlessDoomed(a: State, i: nat)
    requires Arises(a) && i < |a.w.insts| && Holds(a.w, i)
    ensures CanBeFreed(a, i) <==> !Doomed(a, i)
  {
    ArisesSound(a);
    if Doomed(a, i) {
      forall mvs | Course(a, mvs).Some? ensures !Gone(Course(a, mvs).value, i) {
        DoomedForever(a, mvs, i);
      }
    } else {
      UndoomedFrees(a, i);
    }
  }
}
