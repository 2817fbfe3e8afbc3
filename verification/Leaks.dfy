/** Which slots will never be given back, exactly, over all courses of events in bytes. */
module Leaks {
  import opened Octets
  import opened Records
  import opened Reader
  import opened Framing
  import opened Codec
  import opened Requests
  import opened Connection
  import opened Client
  import opened Ownership
  import opened Delivery
  import opened Senders
  import opened Runs
  import opened Link
  import opened Moves
  import EndToEnd

  /**
   * Why a slot is lost. Refusal: the request was aborted in the middle of its parameters. FailedOpening: a write failed
   * after the slot had been taken. LockTaken: the body was dropped while the mutex was taken.
   *
   * The next ones are about requests that only their end record frees, because their body was dropped or will be.
   * ConnectionLost and ConnectionReplaced: it can no longer come. EndedBefore: it came before. BufferStuck: the read
   * buffer holds a part of a header or of padding, which hides the socket. PaddingOwed: an end record was read without
   * its padding, which nothing can be read behind. NobodyLeft: nobody polls the connection any more.
   *
   * SenderJammed: the request body cannot be sent to its end on this transport, and there will be no other one, since
   * all IDs are taken and nobody can free one.
   */
  datatype Doom =
    | Refusal | FailedOpening | LockTaken
    | ConnectionLost | ConnectionReplaced | EndedBefore | BufferStuck | PaddingOwed | NobodyLeft
    | SenderJammed

  /** The request body has been sent, or can be: then the body can be read to its end. */
  predicate Ready(inst: Inst, jammed: bool)
  {
    Live(inst) && (inst.sending == Ended || (inst.sending == Open && !jammed))
  }

  /** There is a body that polls the connection, now or after its request body has been sent. */
  predicate Reads(inst: Inst, jammed: bool)
  {
    Ready(inst, jammed) || Pollable(inst)
  }

  predicate Finishes(w: World, j: nat)
  {
    j < |w.insts| && Ready(w.insts[j], w.jammed)
  }

  predicate ReaderOf(w: World, j: nat)
  {
    j < |w.insts| && Reads(w.insts[j], w.jammed)
  }

  predicate WasAborted(w: World, i: nat)
    requires Shape(w) && i < |w.insts|
  {
    Holds(w, i) && w.insts[i].phase == Dropped && w.slots[w.insts[i].rid].value.aborted
  }

  /** Nobody will read the body of request i: only an end record frees its slot. */
  predicate Forsaken(w: World, i: nat)
    requires Shape(w) && i < |w.insts|
  {
    WasAborted(w, i) || (Holds(w, i) && Live(w.insts[i]) && !Forwarded(w.insts[i]))
  }

  /** The slot of request k is freed by an end record that is still to come, once its body is dropped. */
  predicate Endable(w: World, k: nat)
    requires Shape(w)
  {
    && k < |w.insts| && !w.dead && w.insts[k].epoch == w.epoch && !w.insts[k].peerEnded
    && Holds(w, k) && (Live(w.insts[k]) || WasAborted(w, k))
  }

  /** No permit is left, and nobody waits with one. */
  predicate Full(w: World)
  {
    w.permits == 0 && w.pending == 0
  }

  /** Nobody polls the connection any more, and nobody will. */
  ghost predicate Deserted(w: World)
  {
    Full(w) && forall j :: !ReaderOf(w, j)
  }

  /** No slot will be freed on a transport that takes nothing more. */
  ghost predicate Blocked(a: State)
    requires Shape(a.w)
  {
    && Full(a.w) && a.w.jammed && (forall j :: !Finishes(a.w, j))
    && (Readable(a.w, a.l) ==> forall j, k :: ReaderOf(a.w, j) && Endable(a.w, k) ==> j == k)
  }

  ghost predicate Because(a: State, i: nat, d: Doom)
    requires Shape(a.w) && i < |a.w.insts|
  {
    var inst := a.w.insts[i];
    && Holds(a.w, i)
    && match d
       case Refusal => inst.phase == Rejected
       case FailedOpening => inst.phase == Unopened
       case LockTaken => inst.phase == Dropped && !WasAborted(a.w, i)
       case ConnectionLost => Forsaken(a.w, i) && a.w.dead
       case ConnectionReplaced => Forsaken(a.w, i) && inst.epoch != a.w.epoch
       case EndedBefore => Forsaken(a.w, i) && inst.peerEnded
       case BufferStuck => Forsaken(a.w, i) && !a.w.dead && a.l.unread != []
       case PaddingOwed => Forsaken(a.w, i) && !a.w.dead && EndTaken(a.l.saved)
       case NobodyLeft => Forsaken(a.w, i) && Deserted(a.w)
       case SenderJammed => Live(inst) && inst.sending == Open && Blocked(a)
  }

  ghost predicate Doomed(a: State, i: nat)
    requires Shape(a.w) && i < |a.w.insts|
  {
    exists d :: Because(a, i, d)
  }

  // ---------- what a step of somebody else leaves alone ----------

  predicate EndOfInst(p: PeerRec, i: nat)
  {
    p.inst == i && p.body.EndRequestBody?
  }

  /** Request i and its slot have only been given output, or the end of it. */
  predicate Kept(w: World, r: World, i: nat)
    requires Shape(w) && Shape(r)
  {
    && i < |w.insts| && i < |r.insts| && Holds(w, i) && Holds(r, i)
    && r.insts[i] == w.insts[i].(delivered := r.insts[i].delivered, sent := r.insts[i].sent,
                                 peerEnded := r.insts[i].peerEnded)
    && (w.insts[i].peerEnded ==> r.insts[i].peerEnded)
    && (r.slots[w.insts[i].rid].value.aborted <==> w.slots[w.insts[i].rid].value.aborted)
  }

  /** Among the first k records in flight there is no end record that frees request i. */
  predicate Spares(w: World, i: nat, k: nat)
    requires Shape(w) && i < |w.insts| && Holds(w, i)
  {
    w.slots[w.insts[i].rid].value.aborted ==>
      forall m :: 0 <= m < k && m < |w.inflight| ==> !EndOfInst(w.inflight[m], i)
  }

  lemma KeptDeliver(w: World, i: nat)
    requires Flow(w) && !w.dead && w.inflight != [] && i < |w.insts| && Holds(w, i) && Spares(w, i, 1)
    ensures Kept(w, Deliver(w), i)
  {
    assert QueueOk(w, 0);
    DeliverOwn(w);
  }

  lemma {:induction false} KeptDeliverMany(w: World, k: nat, i: nat)
    requires Flow(w) && !w.dead && k <= |w.inflight| && i < |w.insts| && Holds(w, i) && Spares(w, i, k)
    ensures Kept(w, DeliverMany(w, k), i)
    decreases k
  {
    if k > 0 {
      var r := Deliver(w);
      KeptDeliver(w, i);
      FlowDeliver(w);
      assert forall m :: 0 <= m < |r.inflight| ==> r.inflight[m] == w.inflight[m + 1];
      KeptDeliverMany(r, k - 1, i);
    }
  }

  lemma KeptHappen(w: World, ev: Event, i: nat)
    requires Flow(w) && Possible(w, ev) && i < |w.insts| && Holds(w, i)
    requires ev.Got? ==> Spares(w, i, ev.k)
    ensures Kept(w, Happen(w, ev), i)
  {
    if ev.Got? {
      KeptDeliverMany(w, ev.k, i);
    }
  }

  /** Nothing that is read now frees the slot. */
  predicate Safe(w: World, s: Step, i: nat)
    requires Shape(w) && i < |w.insts| && Holds(w, i)
  {
    (s.Poll? || s.Start?) && s.ev.Got? ==> Spares(w, i, s.ev.k)
  }

  /** A step of request i itself. */
  predicate Own(s: Step, i: nat)
  {
    (s.SendChunk? || s.SendEnd? || s.Poll? || s.Handover? || s.Drop?) && s.i == i
  }

  lemma KeptStart(w: World, s: Step, i: nat)
    requires Flow(w) && s.Start? && Enabled(w, s) && i < |w.insts| && Holds(w, i) && Safe(w, s, i)
    ensures Kept(w, Take(w, s), i)
  {
    KeptHappen(w, s.ev, i);
    EventFrame(w, s.ev);
    assert Kept(w, Prepared(w, s.ev), i);
    KeptInsert(w, Prepared(w, s.ev), s.x, s.order, s.o, i);
  }

  lemma KeptInsert(w: World, h: World, x: nat, order: Order, o: Outcome, i: nat)
    requires Shape(w) && Shape(h) && h.pending > 0 && Vacant(h.slots, x) && x < h.max && Kept(w, h, i)
    ensures Kept(w, Insert(h, x, order, o), i)
  {}

  lemma KeptPoll(w: World, s: Step, i: nat)
    requires Flow(w) && s.Poll? && s.i != i && Enabled(w, s) && i < |w.insts| && Holds(w, i) && Safe(w, s, i)
    ensures Kept(w, Take(w, s), i)
  {
    KeptHappen(w, s.ev, i);
    CoreHappen(w, s.ev);
    SameInst(w, s.ev, s.i);
    KeptPollOne(w, Happen(w, s.ev), s.i, s.complete, i);
  }

  lemma KeptPollOne(w: World, h: World, j: nat, complete: bool, i: nat)
    requires Shape(w) && Core(h) && j < |h.insts| && Live(h.insts[j]) && Kept(w, h, i) && i != j
    ensures Kept(w, PollOne(h, j, complete), i)
  {
    assert InstOk(h, j);
    PollOwn(h, j, complete);
  }

  lemma KeptSend(w: World, s: Step, i: nat)
    requires Flow(w) && Enabled(w, s) && i < |w.insts| && Holds(w, i)
    requires (s.SendChunk? || s.SendEnd?) && s.i != i
    ensures Kept(w, Take(w, s), i)
  {
    SendKeeps(w, s, s.i);
  }

  lemma KeptHandover(w: World, j: nat, head: nat, i: nat)
    requires Flow(w) && Enabled(w, Step.Handover(j, head)) && i < |w.insts| && Holds(w, i) && i != j
    ensures Kept(w, Take(w, Step.Handover(j, head)), i)
  {
    assert InstOk(w, j);
    HandoverOwn(w, j, head);
  }

  lemma KeptDrop(w: World, j: nat, locked: bool, i: nat)
    requires Flow(w) && Enabled(w, Step.Drop(j, locked)) && i < |w.insts| && Holds(w, i) && i != j
    ensures Kept(w, Take(w, Step.Drop(j, locked)), i)
  {
    assert InstOk(w, j);
  }

  lemma KeptPeer(w: World, s: Step, i: nat)
    requires Flow(w) && Enabled(w, s) && i < |w.insts| && Holds(w, i) && s.Peer?
    ensures Kept(w, Take(w, s), i)
  {
    PeerKeeps(w, s.i, s.body);
  }

  lemma KeptStep(w: World, s: Step, i: nat)
    requires Flow(w) && Enabled(w, s) && i < |w.insts| && Holds(w, i) && !Own(s, i) && Safe(w, s, i)
    ensures Kept(w, Take(w, s), i)
  {
    match s {
      case Start(_, _, _, _) => KeptStart(w, s, i);
      case Poll(_, _, _) => KeptPoll(w, s, i);
      case SendChunk(_, _, _) => KeptSend(w, s, i);
      case SendEnd(_, _) => KeptSend(w, s, i);
      case Peer(_, _) => KeptPeer(w, s, i);
      case Handover(j, head) => KeptHandover(w, j, head, i);
      case Drop(j, locked) => KeptDrop(w, j, locked, i);
      case _ =>
    }
  }

  // ---------- and a move ----------

  predicate OwnMove(mv: Move, i: nat)
  {
    match mv
    case PollBody(j, _, _) => j == i
    case Local(s) => Own(s, i)
    case _ => false
  }

  /** What a move reads, and the client's step in it. */
  function ReadBy(a: State, mv: Move): seq<PeerRec>
    requires Owing(a.l.saved)
  {
    match mv
    case PollBody(_, ev, _) => Found(a.l, ev).recs
    case Begin(ev, _, _, _) => Found(a.l, ev).recs
    case Refuse(ev) => Found(a.l, ev).recs
    case _ => []
  }

  function StepOf(a: State, mv: Move): Step
    requires Owing(a.l.saved) && !mv.PeerSends?
  {
    match mv
    case PollBody(i, ev, complete) => Step.Poll(i, EventFound(a.w, a.l, ev), complete)
    case Begin(ev, x, order, o) => Step.Start(EventFound(a.w, a.l, ev), x, order, o)
    case Refuse(_) => GiveUp
    case Local(s) => s
  }

  /** The peer sends what is read, and the client takes its step. */
  predicate InTwo(a: State, mv: Move, v: World, b: World)
    requires Shape(a.w) && Owing(a.l.saved) && !mv.PeerSends?
  {
    var recs, s := ReadBy(a, mv), StepOf(a, mv);
    && Exec(a.w, PeerSteps(recs)) == Some(v) && Shape(v) && Supplied(a.w, v, recs)
    && Enabled(v, s) && b == Take(v, s)
    && ((s.Poll? || s.Start?) && s.ev.Got? ==> !a.w.dead && v.inflight == recs)
  }

  lemma InSteps(a: State, mv: Move, b: State) returns (v: World)
    requires Sound(a) && Do(a, mv) == Some(b) && !mv.PeerSends?
    ensures InTwo(a, mv, v, b.w) && Flow(v) && (mv.Local? ==> v == a.w)
  {
    match mv {
      case PollBody(i, ev, complete) => v := PolledInTwo(a, ev, StepOf(a, mv), b.w);
      case Begin(ev, x, order, o) => v := PolledInTwo(a, ev, StepOf(a, mv), b.w);
      case Refuse(ev) => v := PolledInTwo(a, ev, GiveUp, b.w);
      case Local(s) =>
        v := a.w;
        NothingFed(v);
    }
  }

  lemma PolledInTwo(a: State, ev: SocketEvent, s: Step, b: World) returns (v: World)
    requires Sound(a) && PollThen(a, ev, s) == Some(b)
    ensures var recs := Found(a.l, ev).recs;
            && Exec(a.w, PeerSteps(recs)) == Some(v) && Supplied(a.w, v, recs) && Flow(v)
            && Enabled(v, s) && b == Take(v, s)
            && (EventFound(a.w, a.l, ev).Got? ==> !a.w.dead && v.inflight == recs)
  {
    v := PolledThen(a, ev, s, b);
    FlowRun(a.w, PeerSteps(Found(a.l, ev).recs));
    if EventFound(a.w, a.l, ev).Got? {
      assert v.inflight == [] + Found(a.l, ev).recs == Found(a.l, ev).recs;
    }
  }

  /** The identity of a request never changes. */
  predicate SameRequest(a: Inst, b: Inst)
  {
    b.rid == a.rid && b.epoch == a.epoch && (a.peerEnded ==> b.peerEnded)
  }

  /** A record can be sent for request i of this connection, which the peer has not ended. */
  predicate Unended(w: World, i: nat)
  {
    i < |w.insts| && w.insts[i].epoch == w.epoch && !w.insts[i].peerEnded
  }

  /** The requests are the same, and perhaps more of them have been ended. */
  predicate OnlyEnded(w: World, v: World)
  {
    && |v.insts| == |w.insts| && v.epoch == w.epoch
    && forall i :: 0 <= i < |w.insts| ==> SameRequest(w.insts[i], v.insts[i])
  }

  /** The peer sends only for requests of this connection that it has not ended. */
  lemma {:induction false} PeerMany(w: World, recs: seq<PeerRec>, v: World)
    requires Shape(w) && Exec(w, PeerSteps(recs)) == Some(v)
    ensures OnlyEnded(w, v) && forall k :: 0 <= k < |recs| ==> Unended(w, recs[k].inst)
    decreases |recs|
  {
    if recs != [] {
      var n := |recs| - 1;
      var u := PeerLast(w, recs, v);
      PeerMany(w, recs[..n], u);
      EndedSince(w, u, v, recs[n].inst);
      forall k | 0 <= k < |recs| ensures Unended(w, recs[k].inst) {
        if k < n {
          assert recs[k] == recs[..n][k];
        }
      }
    }
  }

  lemma EndedSince(w: World, u: World, v: World, i: nat)
    requires OnlyEnded(w, u) && OnlyEnded(u, v) && Unended(u, i)
    ensures OnlyEnded(w, v) && Unended(w, i)
  {}

  lemma PeerLast(w: World, recs: seq<PeerRec>, v: World) returns (u: World)
    requires Shape(w) && recs != [] && Exec(w, PeerSteps(recs)) == Some(v)
    ensures Exec(w, PeerSteps(recs[..|recs| - 1])) == Some(u) && Unended(u, recs[|recs| - 1].inst) && OnlyEnded(u, v)
  {
    var n := |recs| - 1;
    assert PeerSteps(recs)[..n] == PeerSteps(recs[..n]);
    u := ExecBack(w, PeerSteps(recs));
    PeerKeeps(u, recs[n].inst, recs[n].body);
  }

  /** What the move reads does not free request i. */
  predicate SafeMove(a: State, mv: Move, i: nat)
    requires Shape(a.w) && Owing(a.l.saved) && i < |a.w.insts| && Holds(a.w, i)
  {
    a.w.slots[a.w.insts[i].rid].value.aborted ==>
      forall k :: 0 <= k < |ReadBy(a, mv)| ==> !EndOfInst(ReadBy(a, mv)[k], i)
  }

  lemma KeptSupplied(w: World, recs: seq<PeerRec>, v: World, i: nat)
    requires Shape(w) && Shape(v) && Exec(w, PeerSteps(recs)) == Some(v) && Supplied(w, v, recs)
    requires i < |w.insts| && Holds(w, i)
    ensures Kept(w, v, i)
  {
    PeerMany(w, recs, v);
  }

  lemma KeptTwice(w: World, v: World, r: World, i: nat)
    requires Shape(w) && Shape(v) && Shape(r) && Kept(w, v, i) && Kept(v, r, i)
    ensures Kept(w, r, i)
  {}

  lemma MoveKept(a: State, mv: Move, b: State, i: nat)
    requires Sound(a) && Do(a, mv) == Some(b) && i < |a.w.insts| && Holds(a.w, i)
    requires !OwnMove(mv, i) && SafeMove(a, mv, i)
    ensures Shape(b.w) && Kept(a.w, b.w, i)
  {
    if !mv.PeerSends? {
      var v := InSteps(a, mv, b);
      KeptInTwo(a.w, ReadBy(a, mv), v, StepOf(a, mv), i);
    }
  }

  lemma KeptInTwo(w: World, recs: seq<PeerRec>, v: World, s: Step, i: nat)
    requires Shape(w) && Exec(w, PeerSteps(recs)) == Some(v) && Supplied(w, v, recs) && Flow(v) && Enabled(v, s)
    requires i < |w.insts| && Holds(w, i) && !Own(s, i)
    requires (s.Poll? || s.Start?) && s.ev.Got? ==> v.inflight == recs
    requires w.slots[w.insts[i].rid].value.aborted ==> forall k :: 0 <= k < |recs| ==> !EndOfInst(recs[k], i)
    ensures Kept(w, Take(v, s), i)
  {
    KeptSupplied(w, recs, v, i);
    KeptStep(v, s, i);
    KeptTwice(w, v, Take(v, s), i);
  }

  /** A request that moves has a body; one that is polled can be polled. */
  lemma Mover(a: State, mv: Move, b: State, i: nat)
    requires Sound(a) && Do(a, mv) == Some(b) && OwnMove(mv, i)
    ensures i < |a.w.insts| && Live(a.w.insts[i]) && (mv.PollBody? ==> Pollable(a.w.insts[i]))
  {
    var v := InSteps(a, mv, b);
    OwnLives(v, StepOf(a, mv), i);
  }

  lemma OwnLives(v: World, s: Step, i: nat)
    requires Core(v) && Enabled(v, s) && Own(s, i)
    ensures i < |v.insts| && Live(v.insts[i]) && (s.Poll? ==> Pollable(v.insts[i]))
  {
    assert InstOk(v, i);
  }

  // ---------- the connection after a move ----------

  /** No end record will reach request i: not on this connection, or it came before. */
  predicate Hopeless(a: State, i: nat)
    requires Shape(a.w) && i < |a.w.insts|
  {
    a.w.insts[i].epoch != a.w.epoch || a.w.insts[i].peerEnded || !Readable(a.w, a.l)
  }

  /** A request that is forsaken and hopeless is doomed. */
  lemma HopelessDoomed(a: State, i: nat)
    requires Shape(a.w) && i < |a.w.insts| && Forsaken(a.w, i) && Hopeless(a, i)
    ensures Doomed(a, i)
  {
    if a.w.insts[i].epoch != a.w.epoch {
      assert Because(a, i, ConnectionReplaced);
    } else if a.w.insts[i].peerEnded {
      assert Because(a, i, EndedBefore);
    } else if a.w.dead {
      assert Because(a, i, ConnectionLost);
    } else if a.l.unread != [] {
      assert Because(a, i, BufferStuck);
    } else {
      assert Because(a, i, PaddingOwed);
    }
  }

  /** A poll of a connection that cannot be read finds nothing, and leaves it so. */
  lemma UnreadablePoll(a: State, ev: SocketEvent)
    requires Sound(a) && Offers(a.l, ev) && PollOf(a.w, a.l, ev).state != Crashed && !Readable(a.w, a.l)
    ensures Found(a.l, ev).recs == [] && !EventFound(a.w, a.l, ev).Got?
    ensures !EventFound(a.w, a.l, ev).Lost? ==> LinkAfter(a.w, a.l, ev) == a.l
  {
    if a.w.dead {
      DeadPoll(a.w, a.l, ev);
    } else if a.l.unread != [] {
      NothingDispatched(a.w.slots, a.l.saved, a.l.unread);
    } else {
      PaddingStops(a.w, a.l, ev);
    }
    NothingFound(a.w, a.l, ev);
  }

  /** Behind an end record whose padding is owed nothing is read: the padding would be an end record of its own. */
  lemma PaddingStops(w: World, l: Link, ev: SocketEvent)
    requires Linked(w, l) && l.unread == [] && EndTaken(l.saved) && PollOf(w, l, ev).state != Crashed
    ensures PollOf(w, l, ev).state in {Quiet, Closed, Failed}
  {
    match ev {
      case Arrived(data) =>
        if data != [] {
          DistributeIsDispatch(w.slots, l.saved, data);
          ClosedVerdict(w.slots, l.saved, data);
          if |data| >= l.saved.value.paddingLength {
            PaddingPanics(w.slots, l.saved, data);
          }
        }
      case _ =>
    }
  }

  lemma PaddingPanics(slots: Slab, saved: Option<Header>, data: bytes)
    requires Owing(saved) && EndTaken(saved) && |data| >= saved.value.paddingLength
    ensures Distribute(slots, saved, data).panicked
  {}

  lemma StartEpoch(v: World, s: Step)
    requires Shape(v) && s.Start? && Enabled(v, s)
    ensures var r := Take(v, s);
            && r.epoch == (if s.ev.Lost? then v.epoch + 1 else v.epoch)
            && (s.ev.Lost? || r.dead == v.dead)
  {
    EventFrame(v, s.ev);
    InsertChanges(Prepared(v, s.ev), s.x, s.order, s.o);
  }

  lemma PollEpoch(v: World, s: Step)
    requires Shape(v) && s.Poll? && Enabled(v, s)
    ensures var r := Take(v, s); r.epoch == v.epoch && r.dead == (v.dead || s.ev.Lost?)
  {
    EventFrame(v, s.ev);
    PollTaken(v, s);
  }

  /** The connection after a move: replaced, or the same one, perhaps found lost. */
  predicate SameConnection(a: State, b: State)
  {
    b.w.epoch == a.w.epoch && (a.w.dead ==> b.w.dead)
  }

  lemma ConnectionMove(a: State, mv: Move, b: State)
    requires Sound(a) && Do(a, mv) == Some(b)
    ensures b.w.epoch > a.w.epoch || SameConnection(a, b)
    ensures (mv.PollBody? || mv.Refuse?) && EventFound(a.w, a.l, mv.ev).Lost? ==> b.w.dead
    ensures mv.Begin? && EventFound(a.w, a.l, mv.ev).Lost? ==> b.w.epoch > a.w.epoch
    ensures !mv.Begin? ==> SameConnection(a, b)
  {
    if !mv.PeerSends? {
      var v := InSteps(a, mv, b);
      match mv {
        case PollBody(_, _, _) => PollEpoch(v, StepOf(a, mv));
        case Begin(_, _, _, _) => StartEpoch(v, StepOf(a, mv));
        case Local(s) => LocalConnection(v, s);
        case _ =>
      }
    }
  }

  lemma LocalConnection(v: World, s: Step)
    requires Shape(v) && IsLocal(s) && Enabled(v, s)
    ensures Take(v, s).epoch == v.epoch && Take(v, s).dead == v.dead
  {
    if s.SendChunk? || s.SendEnd? {
      SendKeeps(v, s, s.i);
    }
  }

  /** A connection that cannot be read stays so until it is replaced, and no move reads anything. */
  lemma UnreadableMove(a: State, mv: Move, b: State)
    requires Sound(a) && Do(a, mv) == Some(b) && !Readable(a.w, a.l)
    ensures ReadBy(a, mv) == []
    ensures b.w.epoch > a.w.epoch || !Readable(b.w, b.l)
  {
    ConnectionMove(a, mv, b);
    if mv.PollBody? || mv.Begin? || mv.Refuse? {
      UnreadablePoll(a, mv.ev);
    }
  }

  /** No end record comes to a hopeless request, whatever is read. */
  lemma HopelessSafe(a: State, mv: Move, b: State, i: nat)
    requires Sound(a) && Do(a, mv) == Some(b) && i < |a.w.insts| && Holds(a.w, i) && Hopeless(a, i)
    ensures SafeMove(a, mv, i)
  {
    if !Readable(a.w, a.l) {
      UnreadableMove(a, mv, b);
    } else if !mv.PeerSends? {
      var v := InSteps(a, mv, b);
      PeerMany(a.w, ReadBy(a, mv), v);
    }
  }

  lemma HopelessStays(a: State, mv: Move, b: State, i: nat)
    requires Sound(a) && Do(a, mv) == Some(b) && i < |a.w.insts| && i < |b.w.insts| && Hopeless(a, i)
    requires SameRequest(a.w.insts[i], b.w.insts[i])
    ensures Shape(b.w) && Hopeless(b, i)
  {
    MoveSound(a, mv, b);
    ConnectionMove(a, mv, b);
    assert InstOk(a.w, i);
    if !Readable(a.w, a.l) {
      UnreadableMove(a, mv, b);
    }
  }

  // ---------- a doomed slot is never freed ----------

  /** A forsaken request can only be dropped: then it is aborted, or the lock was taken. */
  predicate StaysForsaken(w: World, r: World, i: nat)
    requires Shape(w) && Shape(r) && i < |w.insts|
  {
    && i < |r.insts| && Holds(r, i) && SameRequest(w.insts[i], r.insts[i])
    && (Forsaken(r, i) || (r.insts[i].phase == Dropped && !WasAborted(r, i)))
  }

  lemma BodyAborted(w: World, i: nat, locked: bool)
    requires Core(w) && i < |w.insts| && Enabled(w, Step.Drop(i, locked))
    ensures var r := Take(w, Step.Drop(i, locked));
            && i < |r.insts| && Holds(r, i) && r.insts[i].phase == Dropped && SameRequest(w.insts[i], r.insts[i])
            && (locked ==> WasAborted(r, i))
  {
    assert InstOk(w, i);
  }

  lemma ForsakenMove(a: State, mv: Move, b: State, i: nat)
    requires Sound(a) && Do(a, mv) == Some(b) && i < |a.w.insts| && Forsaken(a.w, i) && SafeMove(a, mv, i)
    ensures Shape(b.w) && StaysForsaken(a.w, b.w, i)
  {
    if OwnMove(mv, i) {
      OwnForsaken(a, mv, b, i);
      BodyAborted(a.w, i, mv.s.locked);
    } else {
      MoveKept(a, mv, b, i);
    }
  }

  lemma OwnForsaken(a: State, mv: Move, b: State, i: nat)
    requires Sound(a) && Do(a, mv) == Some(b) && i < |a.w.insts| && Forsaken(a.w, i) && OwnMove(mv, i)
    ensures mv.Local? && mv.s.Drop? && Enabled(a.w, mv.s) && b.w == Take(a.w, mv.s)
  {
    Mover(a, mv, b, i);
    assert InstOk(a.w, i);
  }

  lemma HopelessMove(a: State, mv: Move, b: State, i: nat)
    requires Sound(a) && Do(a, mv) == Some(b) && i < |a.w.insts| && Forsaken(a.w, i) && Hopeless(a, i)
    ensures Shape(b.w) && i < |b.w.insts| && Doomed(b, i)
  {
    HopelessSafe(a, mv, b, i);
    ForsakenMove(a, mv, b, i);
    HopelessStays(a, mv, b, i);
    if Forsaken(b.w, i) {
      HopelessDoomed(b, i);
    } else {
      assert Because(b, i, LockTaken);
    }
  }

  /** A request without a body, whose slot only an end record for an aborted request could free. */
  lemma BodilessMove(a: State, mv: Move, b: State, i: nat, d: Doom)
    requires Sound(a) && Do(a, mv) == Some(b) && i < |a.w.insts| && Because(a, i, d)
    requires d in {Refusal, FailedOpening, LockTaken}
    ensures Shape(b.w) && i < |b.w.insts| && Because(b, i, d)
  {
    assert SlotOk(a.w, a.w.insts[i].rid);
    if OwnMove(mv, i) {
      Mover(a, mv, b, i);
    } else {
      MoveKept(a, mv, b, i);
    }
  }

  /** As a body and as a sender a request only goes on towards its end. */
  predicate Narrows(a: Inst, jammed: bool, b: Inst, later: bool)
  {
    && SameRequest(a, b) && (Live(b) ==> Live(a))
    && (Ready(b, later) ==> Ready(a, jammed)) && (Reads(b, later) ==> Reads(a, jammed))
  }

  lemma NarrowPoll(v: World, s: Step, j: nat)
    requires Core(v) && s.Poll? && Enabled(v, s) && j < |v.insts|
    ensures var r := Take(v, s);
            j < |r.insts| && r.jammed == v.jammed && Narrows(v.insts[j], v.jammed, r.insts[j], r.jammed)
  {
    var h := Happen(v, s.ev);
    SameInst(v, s.ev, j);
    SameInst(v, s.ev, s.i);
    WireFrame(v, s.ev);
    CoreHappen(v, s.ev);
    PollTaken(v, s);
    NarrowPollOne(h, s.i, s.complete, j);
  }

  lemma NarrowPollOne(h: World, i: nat, complete: bool, j: nat)
    requires Core(h) && i < |h.insts| && Pollable(h.insts[i]) && j < |h.insts|
    ensures var r := PollOne(h, i, complete);
            j < |r.insts| && r.jammed == h.jammed && Narrows(h.insts[j], h.jammed, r.insts[j], r.jammed)
  {
    PollSends(h, i, complete);
  }

  lemma NarrowSend(v: World, s: Step, j: nat)
    requires Core(v) && (s.SendChunk? || s.SendEnd?) && Enabled(v, s) && j < |v.insts|
    ensures var r := Take(v, s); j < |r.insts| && Narrows(v.insts[j], v.jammed, r.insts[j], r.jammed)
  {
    assert InstOk(v, s.i);
    SendKeeps(v, s, s.i);
    if s.SendChunk? {
      ChunkTaken(v, s);
    } else {
      EndingTaken(v, s);
    }
  }

  lemma NarrowStep(v: World, s: Step, j: nat)
    requires Core(v) && Enabled(v, s) && j < |v.insts|
    requires s.Poll? || s.SendChunk? || s.SendEnd? || s.Handover? || s.Drop?
    ensures var r := Take(v, s);
            j < |r.insts| == |v.insts| && Narrows(v.insts[j], v.jammed, r.insts[j], r.jammed)
  {
    match s {
      case Poll(i, ev, _) => NarrowPoll(v, s, j); EventFrame(v, ev);
      case SendChunk(_, _, _) => NarrowSend(v, s, j);
      case SendEnd(_, _) => NarrowSend(v, s, j);
      case _ => NarrowLocal(v, s, j);
    }
  }

  lemma NarrowLocal(v: World, s: Step, j: nat)
    requires Core(v) && (s.Handover? || s.Drop?) && Enabled(v, s) && j < |v.insts|
    ensures var r := Take(v, s);
            j < |r.insts| == |v.insts| && Narrows(v.insts[j], v.jammed, r.insts[j], r.jammed)
  {}

  /** Where all IDs are taken, only the peer, a body, or a sender can do anything. */
  lemma FullMove(a: State, mv: Move, b: State)
    requires Sound(a) && Do(a, mv) == Some(b) && Full(a.w)
    ensures mv.PeerSends? || mv.PollBody? || (mv.Local? && !mv.s.Acquire?)
  {
    if !mv.PeerSends? {
      var v := InSteps(a, mv, b);
      if mv.Begin? || mv.Refuse? {
        assert v.pending == a.w.pending;
      }
    }
  }

  lemma NarrowSupplied(w: World, recs: seq<PeerRec>, v: World, j: nat)
    requires Shape(w) && Exec(w, PeerSteps(recs)) == Some(v) && Supplied(w, v, recs) && j < |w.insts|
    ensures |v.insts| == |w.insts| && Narrows(w.insts[j], w.jammed, v.insts[j], v.jammed)
  {
    PeerMany(w, recs, v);
  }

  lemma NarrowInTwo(w: World, recs: seq<PeerRec>, v: World, s: Step, j: nat)
    requires Shape(w) && Exec(w, PeerSteps(recs)) == Some(v) && Supplied(w, v, recs) && Core(v) && Enabled(v, s)
    requires s.Poll? || s.SendChunk? || s.SendEnd? || s.Handover? || s.Drop?
    ensures |Take(v, s).insts| == |w.insts|
    ensures j < |w.insts| ==> Narrows(w.insts[j], w.jammed, Take(v, s).insts[j], Take(v, s).jammed)
  {
    if j < |w.insts| {
      NarrowSupplied(w, recs, v, j);
      NarrowStep(v, s, j);
    } else {
      NarrowStep(v, s, s.i);
    }
  }

  lemma NarrowMove(a: State, mv: Move, b: State, j: nat)
    requires Sound(a) && Do(a, mv) == Some(b) && Full(a.w) && j < |b.w.insts|
    ensures |b.w.insts| == |a.w.insts| && Narrows(a.w.insts[j], a.w.jammed, b.w.insts[j], b.w.jammed)
  {
    FullMove(a, mv, b);
    if !mv.PeerSends? {
      var v := InSteps(a, mv, b);
      NarrowInTwo(a.w, ReadBy(a, mv), v, StepOf(a, mv), j);
    }
  }

  /** Where nobody polls the connection, it stays so. */
  lemma DesertedMove(a: State, mv: Move, b: State)
    requires Sound(a) && Do(a, mv) == Some(b) && Deserted(a.w)
    ensures Deserted(b.w) && ReadBy(a, mv) == []
  {
    FullMove(a, mv, b);
    DesertedIdle(a, mv, b);
    forall j: nat | j < |b.w.insts| ensures !ReaderOf(b.w, j) {
      NarrowMove(a, mv, b, j);
      assert !ReaderOf(a.w, j);
    }
  }

  lemma DesertedIdle(a: State, mv: Move, b: State)
    requires Sound(a) && Do(a, mv) == Some(b) && Deserted(a.w)
    ensures !mv.PollBody? && Full(b.w)
  {
    FullMove(a, mv, b);
    if mv.PollBody? {
      Mover(a, mv, b, mv.i);
      assert ReaderOf(a.w, mv.i);
    } else if mv.Local? {
      FullLocal(a.w, mv.s);
    }
  }

  lemma FullLocal(w: World, s: Step)
    requires Shape(w) && Enabled(w, s) && IsLocal(s) && !s.Acquire?
    ensures Take(w, s).permits == w.permits && Take(w, s).pending == w.pending
  {
    if s.SendChunk? || s.SendEnd? {
      SendKeeps(w, s, s.i);
    }
  }

  // ---------- a jammed transport ----------

  lemma {:induction false} CountMore(a: Slab, b: Slab)
    requires forall x :: 0 <= x < |a| && a[x].Some? ==> x < |b| && b[x].Some?
    ensures Count(a) <= Count(b)
  {
    if a != [] {
      assert forall x :: 0 <= x < |a[1..]| && a[1..][x].Some? ==> a[x + 1].Some?;
      CountMore(a[1..], if b == [] then [] else b[1..]);
    }
  }

  /** What is read on a blocked connection frees nobody but a request that polls for itself. */
  lemma BlockedSafe(a: State, mv: Move, b: State, k: nat)
    requires Sound(a) && Do(a, mv) == Some(b) && Blocked(a) && k < |a.w.insts| && Holds(a.w, k)
    ensures SafeMove(a, mv, k)
  {
    FullMove(a, mv, b);
    assert SlotOk(a.w, a.w.insts[k].rid);
    if !Readable(a.w, a.l) {
      UnreadableMove(a, mv, b);
    } else if mv.PollBody? && a.w.slots[a.w.insts[k].rid].value.aborted {
      BlockedSparse(a, mv, b, k);
      ReadsUnended(a, mv, b);
    }
  }

  lemma ReadsUnended(a: State, mv: Move, b: State)
    requires Sound(a) && Do(a, mv) == Some(b)
    ensures forall m :: 0 <= m < |ReadBy(a, mv)| ==> Unended(a.w, ReadBy(a, mv)[m].inst)
  {
    if !mv.PeerSends? {
      var v := InSteps(a, mv, b);
      PeerMany(a.w, ReadBy(a, mv), v);
    }
  }

  /** A request that waits for its end record only is not there for another body to read. */
  lemma BlockedSparse(a: State, mv: Move, b: State, k: nat)
    requires Sound(a) && Do(a, mv) == Some(b) && Blocked(a) && Readable(a.w, a.l) && mv.PollBody?
    requires k < |a.w.insts| && Holds(a.w, k) && a.w.slots[a.w.insts[k].rid].value.aborted
    ensures !Unended(a.w, k)
  {
    Mover(a, mv, b, mv.i);
    assert SlotOk(a.w, a.w.insts[k].rid);
    assert ReaderOf(a.w, mv.i);
    assert Unended(a.w, k) ==> Endable(a.w, k);
  }

  /** On a blocked connection no slot is freed, not even by a body that polls for its header. */
  lemma BlockedHolds(a: State, mv: Move, b: State, k: nat)
    requires Sound(a) && Do(a, mv) == Some(b) && Blocked(a) && k < |a.w.insts| && Holds(a.w, k)
    ensures Shape(b.w) && k < |b.w.insts| && Holds(b.w, k) && b.w.insts[k].rid == a.w.insts[k].rid
  {
    BlockedSafe(a, mv, b, k);
    if OwnMove(mv, k) {
      Mover(a, mv, b, k);
      assert !Finishes(a.w, k);
      var v := InSteps(a, mv, b);
      KeptSupplied(a.w, ReadBy(a, mv), v, k);
      OwnHolds(v, StepOf(a, mv), k);
    } else {
      MoveKept(a, mv, b, k);
    }
  }

  /** Request k keeps its slot in a step of its own, unless the caller has its body. */
  lemma OwnHolds(v: World, s: Step, k: nat)
    requires Flow(v) && Enabled(v, s) && Own(s, k) && Holds(v, k) && Safe(v, s, k)
    requires s.Poll? ==> v.insts[k].phase == Parsing
    ensures var r := Take(v, s); k < |r.insts| && Holds(r, k) && r.insts[k].rid == v.insts[k].rid
  {
    match s {
      case Poll(_, ev, complete) =>
        KeptHappen(v, ev, k);
        CoreHappen(v, ev);
        PollTaken(v, s);
        ParsingHolds(Happen(v, ev), k, complete);
      case SendChunk(_, _, _) => SendKeeps(v, s, k);
      case SendEnd(_, _) => SendKeeps(v, s, k);
      case Handover(_, head) => HandoverOwn(v, k, head);
      case _ =>
    }
  }

  lemma ParsingHolds(h: World, k: nat, complete: bool)
    requires Shape(h) && k < |h.insts| && h.insts[k].phase == Parsing && Holds(h, k)
    ensures var r := PollOne(h, k, complete); Holds(r, k) && r.insts[k].rid == h.insts[k].rid
  {}

  lemma BlockedFull(a: State, mv: Move, b: State)
    requires Sound(a) && Do(a, mv) == Some(b) && Blocked(a)
    ensures Full(b.w)
  {
    MoveSound(a, mv, b);
    assert a.w.permits + a.w.pending + Count(a.w.slots) == a.w.max;
    assert b.w.permits + b.w.pending + Count(b.w.slots) == b.w.max;
    forall x | 0 <= x < |a.w.slots| && a.w.slots[x].Some? ensures x < |b.w.slots| && b.w.slots[x].Some? {
      assert SlotOk(a.w, x);
      BlockedHolds(a, mv, b, a.w.owner[x]);
    }
    CountMore(a.w.slots, b.w.slots);
  }

  /** If request k has its slot then it had it before, and then it has not been aborted since. */
  predicate Since(w: World, r: World, k: nat)
    requires Shape(w) && Shape(r)
  {
    && k < |w.insts| && k < |r.insts| && r.insts[k].rid == w.insts[k].rid
    && (Holds(r, k) ==>
          && Holds(w, k) && (r.insts[k].phase == w.insts[k].phase || r.insts[k].phase == Done)
          && (r.slots[w.insts[k].rid].value.aborted ==> w.slots[w.insts[k].rid].value.aborted))
  }

  lemma SinceDeliver(w: World, k: nat)
    requires Shape(w) && w.inflight != [] && k < |w.insts|
    ensures Since(w, Deliver(w), k)
  {
    DeliverChanges(w);
  }

  lemma {:induction false} SinceMany(w: World, n: nat, k: nat)
    requires Shape(w) && n <= |w.inflight| && k < |w.insts|
    ensures Since(w, DeliverMany(w, n), k)
    decreases n
  {
    if n > 0 {
      SinceDeliver(w, k);
      SinceMany(Deliver(w), n - 1, k);
      SameInstMany(w, n, k);
    }
  }

  lemma SincePoll(v: World, s: Step, k: nat)
    requires Core(v) && s.Poll? && Enabled(v, s) && k < |v.insts|
    ensures Since(v, Take(v, s), k)
  {
    var h := Happen(v, s.ev);
    if s.ev.Got? {
      SinceMany(v, s.ev.k, k);
    }
    CoreHappen(v, s.ev);
    SameInst(v, s.ev, s.i);
    PollTaken(v, s);
    SincePollOne(h, s.i, s.complete, k);
  }

  lemma SincePollOne(h: World, i: nat, complete: bool, k: nat)
    requires Core(h) && i < |h.insts| && Live(h.insts[i]) && k < |h.insts|
    ensures Since(h, PollOne(h, i, complete), k)
  {
    assert InstOk(h, i);
    PollOwn(h, i, complete);
    PollSends(h, i, complete);
    PollPhase(h, i, complete);
  }

  lemma PollPhase(h: World, i: nat, complete: bool)
    requires Shape(h) && i < |h.insts|
    ensures PollOne(h, i, complete).insts[i].phase in {h.insts[i].phase, Done}
  {}

  lemma HeldStep(v: World, s: Step, k: nat)
    requires Core(v) && Enabled(v, s) && k < |v.insts|
    requires s.Poll? || s.SendChunk? || s.SendEnd? || s.Handover? || s.Drop?
    requires var r := Take(v, s); k < |r.insts| && Holds(r, k) && (Live(r.insts[k]) || WasAborted(r, k))
    ensures Holds(v, k) && (Live(v.insts[k]) || WasAborted(v, k))
  {
    match s {
      case Poll(_, _, _) => SincePoll(v, s, k);
      case SendChunk(_, _, _) => SendKeeps(v, s, s.i);
      case SendEnd(_, _) => SendKeeps(v, s, s.i);
      case Handover(i, head) => assert InstOk(v, i); HandoverOwn(v, i, head);
      case Drop(i, _) => assert InstOk(v, i);
    }
  }

  /** What is left of a request that an end record could free was there before. */
  lemma BlockedEndable(a: State, mv: Move, b: State, k: nat)
    requires Sound(a) && Do(a, mv) == Some(b) && Blocked(a) && Shape(b.w) && Endable(b.w, k)
    ensures Endable(a.w, k)
  {
    MoveSound(a, mv, b);
    ConnectionMove(a, mv, b);
    FullMove(a, mv, b);
    NarrowMove(a, mv, b, k);
    assert InstOk(a.w, k);
    HeldBefore(a, mv, b, k);
  }

  lemma HeldBefore(a: State, mv: Move, b: State, k: nat)
    requires Sound(a) && Do(a, mv) == Some(b) && Full(a.w) && k < |a.w.insts| && Shape(b.w) && k < |b.w.insts|
    requires Holds(b.w, k) && (Live(b.w.insts[k]) || WasAborted(b.w, k))
    ensures Holds(a.w, k) && (Live(a.w.insts[k]) || WasAborted(a.w, k))
  {
    FullMove(a, mv, b);
    if !mv.PeerSends? {
      var v := InSteps(a, mv, b);
      HeldStep(v, StepOf(a, mv), k);
    }
  }

  lemma BlockedMove(a: State, mv: Move, b: State)
    requires Sound(a) && Do(a, mv) == Some(b) && Blocked(a)
    ensures Shape(b.w) && Blocked(b)
  {
    MoveSound(a, mv, b);
    BlockedFull(a, mv, b);
    BlockedJammed(a, mv, b);
    BlockedReaders(a, mv, b);
    if Readable(b.w, b.l) {
      BlockedReadable(a, mv, b);
      forall j, k | ReaderOf(b.w, j) && Endable(b.w, k) ensures j == k {
        BlockedEndable(a, mv, b, k);
        assert ReaderOf(a.w, j);
      }
    }
  }

  lemma BlockedReaders(a: State, mv: Move, b: State)
    requires Sound(a) && Do(a, mv) == Some(b) && Blocked(a)
    ensures forall j :: !Finishes(b.w, j) && (ReaderOf(b.w, j) ==> ReaderOf(a.w, j))
  {
    forall j: nat ensures !Finishes(b.w, j) && (ReaderOf(b.w, j) ==> ReaderOf(a.w, j)) {
      if j < |b.w.insts| {
        NarrowMove(a, mv, b, j);
        assert !Finishes(a.w, j);
      }
    }
  }

  lemma BlockedJammed(a: State, mv: Move, b: State)
    requires Sound(a) && Do(a, mv) == Some(b) && Blocked(a)
    ensures b.w.jammed
  {
    FullMove(a, mv, b);
    if !mv.PeerSends? {
      var v := InSteps(a, mv, b);
      JammedStep(v, StepOf(a, mv));
    }
  }

  lemma JammedStep(v: World, s: Step)
    requires Shape(v) && Enabled(v, s) && v.jammed && !s.Start?
    ensures Take(v, s).jammed
  {
    if s.Poll? {
      WireFrame(v, s.ev);
      PollTaken(v, s);
    }
  }

  lemma BlockedReadable(a: State, mv: Move, b: State)
    requires Sound(a) && Do(a, mv) == Some(b) && Full(a.w) && Readable(b.w, b.l)
    ensures Readable(a.w, a.l)
  {
    FullMove(a, mv, b);
    if !Readable(a.w, a.l) {
      UnreadableMove(a, mv, b);
      ConnectionMove(a, mv, b);
    }
  }

  /** Where nobody else reads for it either, a forsaken request of a blocked connection is lost. */
  lemma BlockedForsaken(a: State, i: nat)
    requires Shape(a.w) && i < |a.w.insts| && Blocked(a) && Forsaken(a.w, i)
    ensures Doomed(a, i)
  {
    if Hopeless(a, i) {
      HopelessDoomed(a, i);
    } else {
      assert Endable(a.w, i);
      forall j ensures !ReaderOf(a.w, j) {
        assert ReaderOf(a.w, j) ==> j == i;
      }
      assert Because(a, i, NobodyLeft);
    }
  }

  lemma JammedMove(a: State, mv: Move, b: State, i: nat)
    requires Sound(a) && Do(a, mv) == Some(b) && i < |a.w.insts| && Because(a, i, SenderJammed)
    ensures Shape(b.w) && i < |b.w.insts| && Doomed(b, i)
  {
    BlockedMove(a, mv, b);
    BlockedHolds(a, mv, b, i);
    JammedSender(a, mv, b, i);
    if Live(b.w.insts[i]) && b.w.insts[i].sending == Open {
      assert Because(b, i, SenderJammed);
    } else if Forsaken(b.w, i) {
      BlockedForsaken(b, i);
    } else {
      assert Because(b, i, LockTaken);
    }
  }

  lemma JammedSender(a: State, mv: Move, b: State, i: nat)
    requires Sound(a) && Do(a, mv) == Some(b) && i < |a.w.insts| && Because(a, i, SenderJammed)
    requires Blocked(b) && i < |b.w.insts| && Holds(b.w, i)
    ensures Live(b.w.insts[i]) || b.w.insts[i].phase == Dropped
    ensures Live(b.w.insts[i]) ==> b.w.insts[i].sending != Ended
  {
    assert !Finishes(b.w, i);
    MoveSound(a, mv, b);
    assert SlotOk(b.w, b.w.insts[i].rid) && SlotOk(a.w, a.w.insts[i].rid);
    FullMove(a, mv, b);
    if !mv.PeerSends? {
      var v := InSteps(a, mv, b);
      PhaseStep(v, StepOf(a, mv), i);
    }
  }

  /** A live body stays so, or ends, or is dropped. */
  lemma PhaseStep(v: World, s: Step, i: nat)
    requires Core(v) && Enabled(v, s) && i < |v.insts| && Live(v.insts[i])
    requires s.Poll? || s.SendChunk? || s.SendEnd? || s.Handover? || s.Drop?
    ensures var r := Take(v, s); i < |r.insts| && (Live(r.insts[i]) || r.insts[i].phase in {Done, Dropped})
  {
    match s {
      case Poll(j, ev, complete) =>
        SameInst(v, ev, i);
        PollTaken(v, s);
        PollPhase(Happen(v, ev), j, complete);
      case SendChunk(_, _, _) => SendKeeps(v, s, s.i);
      case SendEnd(_, _) => SendKeeps(v, s, s.i);
      case _ =>
    }
  }

  lemma DesertedForsaken(a: State, mv: Move, b: State, i: nat)
    requires Sound(a) && Do(a, mv) == Some(b) && i < |a.w.insts| && Because(a, i, NobodyLeft)
    ensures Shape(b.w) && i < |b.w.insts| && Doomed(b, i)
  {
    DesertedMove(a, mv, b);
    ForsakenMove(a, mv, b, i);
    assert Because(b, i, if Forsaken(b.w, i) then NobodyLeft else LockTaken);
  }

  /** Whatever happens next, a doomed slot stays taken and doomed. */
  lemma DoomedMove(a: State, mv: Move, b: State, i: nat)
    requires Sound(a) && Do(a, mv) == Some(b) && i < |a.w.insts| && Doomed(a, i)
    ensures Shape(b.w) && i < |b.w.insts| && Doomed(b, i)
  {
    var d :| Because(a, i, d);
    match d {
      case NobodyLeft => DesertedForsaken(a, mv, b, i);
      case SenderJammed => JammedMove(a, mv, b, i);
      case _ =>
        if d in {Refusal, FailedOpening, LockTaken} {
          BodilessMove(a, mv, b, i, d);
        } else {
          HopelessMove(a, mv, b, i);
        }
    }
  }

  lemma {:induction false} DoomedForever(a: State, mvs: seq<Move>, i: nat)
    requires Sound(a) && i < |a.w.insts| && Doomed(a, i) && Course(a, mvs).Some?
    ensures var b := Course(a, mvs).value; Sound(b) && i < |b.w.insts| && Holds(b.w, i) && Doomed(b, i)
    decreases |mvs|
  {
    if mvs != [] {
      var n := |mvs| - 1;
      var c := CourseBack(a, mvs);
      DoomedForever(a, mvs[..n], i);
      MoveSound(c, mvs[n], Course(a, mvs).value);
      DoomedMove(c, mvs[n], Course(a, mvs).value, i);
    }
  }
}
