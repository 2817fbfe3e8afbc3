/** One multiplexed connection: the shared part behind the mutex, the response bodies, and the sending side. */
module Connection {
  import opened Octets
  import opened Records
  import opened Reader
  import opened Framing
  import opened NameValue
  import opened Codec
  import opened Requests

  // ---------- polling the connection ----------

  /** What the socket has to say when the read buffer is empty; Arrived([]) is the end of the stream. */
  datatype SocketEvent = NotReady | Fault | Arrived(data: bytes)

  datatype ConState = Quiet | Progress | Closed | Failed | Crashed

  datatype Polling = Polling(slots: Slab, saved: Option<Header>, unread: bytes, state: ConState)

  /** Unread bytes hide the socket: they are offered again before anything new is read. */
  function Offered(unread: bytes, ev: SocketEvent): SocketEvent
  {
    if unread != [] then Arrived(unread) else ev
  }

  function PollStep(slots: Slab, saved: Option<Header>, unread: bytes, ev: SocketEvent): (p: Polling)
    requires Owing(saved)
    ensures p.state != Crashed ==> Owing(p.saved)
    ensures |p.slots| == |slots|
  {
    match Offered(unread, ev)
    case NotReady => Polling(slots, saved, unread, Quiet)
    case Fault => Polling(NotifyAll(slots), saved, unread, Failed)
    case Arrived(data) =>
      if data == [] then Polling(NotifyAll(slots), saved, [], Closed)
      else
        var d := Distribute(slots, saved, data);
        DistributeRefines(slots, saved, data);
        if d.panicked then Polling(d.slots, d.saved, d.rest, Crashed)
        else if |d.rest| == |data| then Polling(NotifyAll(d.slots), d.saved, data, Closed)
        else Polling(d.slots, d.saved, d.rest, Progress)
  }

  /**
   * What a poll of the connection reports, and what it leaves: unread bytes are offered again before the socket is
   * heard; a silent socket changes nothing; a failure, the end, and bytes that cannot be used notify everybody and
   * leave reader and bytes as they were.
   */
  lemma PollReports(slots: Slab, saved: Option<Header>, unread: bytes, ev: SocketEvent)
    requires Owing(saved)
    ensures var p := PollStep(slots, saved, unread, ev);
            var data := if unread != [] then unread else if ev.Arrived? then ev.data else [];
            && (p.state == Quiet <==> unread == [] && ev == NotReady)
            && (p.state == Failed <==> unread == [] && ev == Fault)
            && (p.state == Quiet ==> p.slots == slots && p.saved == saved && p.unread == [])
            && (p.state in {Closed, Failed} ==> p.slots == NotifyAll(slots) && p.saved == saved && p.unread == data)
            && (p.state == Progress ==>
                  && p.slots == Distribute(slots, saved, data).slots && p.saved == Distribute(slots, saved, data).saved
                  && p.unread == Distribute(slots, saved, data).rest && |p.unread| < |data|)
            && (p.state == Crashed <==> data != [] && Distribute(slots, saved, data).panicked)
  {
    if unread != [] || (ev.Arrived? && ev.data != []) {
      var data := Offered(unread, ev).data;
      DistributeRefines(slots, saved, data);
      if !Distribute(slots, saved, data).panicked {
        ClosedVerdict(slots, saved, data);
        RestShrinks(slots, saved, data);
      }
    }
  }

  /** A connection is reported closed at the end of the stream, or when the read buffer cannot be advanced. */
  lemma WhenClosed(slots: Slab, saved: Option<Header>, unread: bytes, ev: SocketEvent)
    requires Owing(saved) && PollStep(slots, saved, unread, ev).state != Crashed
    ensures PollStep(slots, saved, unread, ev).state == Closed
       <==> match Offered(unread, ev)
            case Arrived(data) =>
              data == [] || (match saved case None => |data| < HEADER_LEN
                                         case Some(h) => h.contentLength == 0 && |data| < h.paddingLength)
            case _ => false
  {
    match Offered(unread, ev) {
      case Arrived(data) => if data != [] { ClosedVerdict(slots, saved, data); }
      case _ =>
    }
  }

  lemma NotifyTwice(slots: Slab)
    ensures NotifyAll(NotifyAll(slots)) == NotifyAll(slots)
  {}

  /**
   * That verdict is final: with bytes left in the read buffer every later poll, whatever the socket offers,
   * finds the same bytes and reports the connection closed again.
   */
  lemma ClosedStaysClosed(slots: Slab, saved: Option<Header>, unread: bytes, ev: SocketEvent, later: SocketEvent)
    requires Owing(saved)
    requires var p := PollStep(slots, saved, unread, ev); p.state == Closed && p.unread != []
    ensures var p := PollStep(slots, saved, unread, ev);
            PollStep(p.slots, p.saved, p.unread, later) == p
  {
    var p := PollStep(slots, saved, unread, ev);
    ClosedVerdict(slots, saved, p.unread);
    ClosedVerdict(p.slots, saved, p.unread);
    NothingDispatched(p.slots, saved, p.unread);
    NotifyTwice(slots);
  }

  lemma NothingDispatched(slots: Slab, saved: Option<Header>, data: bytes)
    requires Owing(saved) && AtRest(saved, data)
    ensures data != [] ==> Distribute(slots, saved, data) == Distributed(slots, saved, data, false)
  {}

  /** A header cut after its first byte: the bytes of a healthy connection make it count as closed. */
  lemma CutHeaderCloses(q: Request)
    requires !q.aborted && !q.ended
    ensures var p := PollStep([Some(q)], None, [], Arrived([1]));
            p.state == Closed && p.slots[0].Some? && p.slots[0].value.ended
  {
    assert Distribute([Some(q)], None, [1]) == Distributed([Some(q)], None, [1], false);
  }

  /** The records of a stretch of bytes, dispatched one after the other. */
  function DispatchAll(slots: Slab, fs: seq<Fragment>): Option<Slab>
    decreases |fs|
  {
    if fs == [] then Some(slots)
    else match ParseBody(fs[0].content, fs[0].header.rtype)
      case None => None
      case Some(body) => DispatchAll(Dispatch(slots, fs[0].header.requestId, body), fs[1..])
  }

  lemma {:induction false} DistributeIsDispatch(slots: Slab, saved: Option<Header>, data: bytes)
    requires Owing(saved)
    ensures var d, e := Distribute(slots, saved, data), Drain(saved, data);
            && (d.panicked <==> e.malformed || DispatchAll(slots, e.frags).None?)
            && (!d.panicked ==> DispatchAll(slots, e.frags) == Some(d.slots) && d.saved == e.saved && d.rest == e.rest)
    decreases |data|
  {
    ReaderProgress(saved, data);
    match NextFragment(saved, data) {
      case Delivered(f, s, rest) =>
        var e := Drain(s, rest);
        assert ([f] + e.frags)[1..] == e.frags;
        var body := ParseBody(f.content, f.header.rtype);
        if body.Some? {
          DistributeIsDispatch(Dispatch(slots, f.header.requestId, body.value), s, rest);
        }
      case _ =>
    }
  }

  // ---------- the shared part ----------

  class InnerConnection {
    var slots: Slab
    /** The read buffer: bytes taken from the socket and not consumed. */
    var unread: bytes
    var parser: RecordReader

    constructor ()
      ensures slots == [] && unread == [] && fresh(parser) && parser.current == None
    {
      slots := [];
      unread := [];
      parser := new RecordReader();
    }

    method ParseAndDistribute(data: bytes) returns (rest: bytes, ok: bool)
      requires Owing(parser.current)
      modifies this`slots, parser
      ensures var d := Distribute(old(slots), old(parser.current), data);
              && ok == !d.panicked
              && (ok ==> slots == d.slots && parser.current == d.saved && rest == d.rest)
    {
      rest := data;
      while true
        invariant Owing(parser.current)
        invariant Distribute(slots, parser.current, rest) == Distribute(old(slots), old(parser.current), data)
        decreases |rest|
      {
        ReaderProgress(parser.current, rest);
        var r;
        r, rest := parser.Read(rest);
        match r {
          case NoRecord => return rest, true;
          case Panicked => return rest, false;
          case Got(record) => DispatchRecord(record);
        }
      }
    }

    method DispatchRecord(r: Record)
      modifies this`slots
      ensures slots == Dispatch(old(slots), r.header.requestId, r.body)
    {
      if r.header.requestId == MGMT_REQUEST_ID {
        return;
      }
      var reqNo: nat := r.header.requestId as int - 1;
      if !Occupied(slots, reqNo) {
        return;
      }
      var mpxs := slots[reqNo].value;
      match r.body {
        case EndRequestBody(_, _) =>
          slots := slots[reqNo := Some(mpxs.(ended := true, waker := false))];
          if mpxs.aborted {
            slots := slots[reqNo := None];
          }
        case StdOutBody(s) =>
          if !mpxs.aborted && s != [] {
            mpxs := mpxs.(buf := mpxs.buf + [s]);
            if mpxs.waker {
              mpxs := mpxs.(waker := false);
            }
            slots := slots[reqNo := Some(mpxs)];
          }
        case _ =>
      }
    }

    method NotifyEveryone()
      modifies this`slots
      ensures slots == NotifyAll(old(slots))
    {
      for rid := 0 to |slots|
        invariant |slots| == |old(slots)|
        invariant slots == NotifyAll(old(slots))[..rid] + old(slots)[rid..]
      {
        if slots[rid].Some? {
          var mpxs := slots[rid].value.(waker := false);
          if !mpxs.aborted {
            mpxs := mpxs.(ended := true);
          }
          slots := slots[rid := Some(mpxs)];
        }
      }
    }

    /** Reads what there is, distributes it, and ends everybody when the connection seems lost. */
    method PollResp(ev: SocketEvent) returns (state: ConState)
      requires Owing(parser.current)
      modifies this`slots, this`unread, parser
      ensures var p := PollStep(old(slots), old(parser.current), old(unread), ev);
              && state == p.state
              && (state != Crashed ==> slots == p.slots && parser.current == p.saved && unread == p.unread)
      ensures state != Crashed ==> Owing(parser.current)
    {
      var read := 0;
      match Offered(unread, ev) {
        case Arrived(data) =>
          unread := data;
          if data != [] {
            DistributeRefines(slots, parser.current, data);
            var rest, ok := ParseAndDistribute(data);
            if !ok {
              return Crashed;
            }
            RestShrinks(old(slots), old(parser.current), data);
            read := |data| - |rest|;
            if read != 0 {
              unread := rest;
            }
          }
        case Fault =>
          NotifyEveryone();
          return Failed;
        case NotReady => return Quiet;
      }
      if read == 0 {
        NotifyEveryone();
        return Closed;
      }
      return Progress;
    }
  }

  // ---------- response bodies ----------

  datatype FrameAnswer = Pending | End | Frame(chunk: bytes) | Crash

  class FCGIBody {
    const con: InnerConnection
    const rid: nat
    var done: bool
    var wasReturned: bool

    constructor (con: InnerConnection, rid: nat)
      ensures this.con == con && this.rid == rid && !done && !wasReturned
    {
      this.con := con;
      this.rid := rid;
      done := false;
      wasReturned := false;
    }

    /** Polls the connection, then this body's slot; without the lock nothing happens. */
    method PollFrame(ev: SocketEvent, locked: bool) returns (r: FrameAnswer)
      requires Owing(con.parser.current)
      modifies this`done, con`slots, con`unread, con.parser
      ensures old(done) ==> r == End && done
      ensures !old(done) && !locked ==> r == Pending && !done
      ensures old(done) || !locked ==>
                con.slots == old(con.slots) && con.unread == old(con.unread)
                && con.parser.current == old(con.parser.current)
      ensures !old(done) && locked && r != Crash ==>
                var p := PollStep(old(con.slots), old(con.parser.current), old(con.unread), ev);
                var q := PollSlot(p.slots, rid, wasReturned);
                && con.slots == q.slots && con.parser.current == p.saved && con.unread == p.unread
                && done == q.done
                && r == match q.answer case Chunk(c) => Frame(c) case Finished => End case Waiting => Pending
      ensures !old(done) && locked && r == Pending ==>
                && Occupied(con.slots, rid) && con.slots[rid].value.waker
                && Flatten(con.slots[rid].value.buf) == [] && !con.slots[rid].value.ended
      ensures r == Crash <==>
                && !old(done) && locked
                && PollStep(old(con.slots), old(con.parser.current), old(con.unread), ev).state == Crashed
    {
      if done {
        return End;
      }
      if !locked {
        return Pending;
      }
      var state := con.PollResp(ev);
      if state == Crashed {
        return Crash;
      }
      if !Occupied(con.slots, rid) {
        done := true;
        return End;
      }
      var slab := con.slots[rid].value;
      if Flatten(slab.buf) != [] {
        r := Frame(slab.buf[0]);
        slab := slab.(buf := slab.buf[1..]);
        con.slots := con.slots[rid := Some(slab)];
        if wasReturned && slab.ended && Flatten(slab.buf) == [] {
          con.slots := con.slots[rid := None];
          done := true;
        }
      } else if slab.ended {
        if wasReturned {
          con.slots := con.slots[rid := None];
          done := true;
        }
        r := End;
      } else {
        con.slots := con.slots[rid := Some(slab.(waker := true))];
        r := Pending;
      }
    }

    /** The end of header parsing: what is left of the last chunk goes back into the request's buffer. */
    method Handover(left: bytes)
      requires left != [] ==> Occupied(con.slots, rid)
      modifies this`wasReturned, con`slots
      ensures wasReturned && con.slots == PushBack(old(con.slots), rid, left)
    {
      if left != [] {
        var slab := con.slots[rid].value;
        con.slots := con.slots[rid := Some(slab.(buf := slab.buf + [left]))];
      }
      wasReturned := true;
    }

    /** Dropping an unfinished body aborts its request, if the lock is free at that moment. */
    method Drop(locked: bool)
      modifies con`slots
      ensures con.slots == if done || !locked then old(con.slots) else Abort(old(con.slots), rid)
    {
      if done || !locked {
        return;
      }
      if Occupied(con.slots, rid) {
        var req := con.slots[rid].value;
        con.slots := con.slots[rid := Some(req.(aborted := true, waker := false))];
      }
    }
  }

  // ---------- sending a request body ----------

  const USIZE: nat := 0x1_0000_0000_0000_0000

  /** The records of one chunk: an empty chunk or an error writes nothing. */
  function PieceRecs(id: u16, piece: Option<bytes>): (r: seq<Rec>)
    ensures Sized(r)
  {
    match piece case None => [] case Some(s) => if s == [] then [] else FlushRecs(StdIn, id, s)
  }

  function ChunkRecs(id: u16, body: seq<Option<bytes>>): (r: seq<Rec>)
    ensures Sized(r)
  {
    if body == [] then [] else PieceRecs(id, body[0]) + ChunkRecs(id, body[1..])
  }

  /** The bytes still missing of those announced, in the machine's wrapping arithmetic. */
  function Missing(announced: nat, sent: nat): nat
  {
    (announced - sent) % USIZE
  }

  function StdInRecs(id: u16, body: seq<Option<bytes>>, announced: nat): (r: seq<Rec>)
    ensures Sized(r)
  {
    ChunkRecs(id, body) + if Missing(announced, |Total(body)|) > 0 then [AbortRec(id)] else [Rec(StdIn, id, [])]
  }

  lemma {:induction false} ChunkRecsAppend(id: u16, a: seq<Option<bytes>>, b: seq<Option<bytes>>)
    ensures ChunkRecs(id, a + b) == ChunkRecs(id, a) + ChunkRecs(id, b)
  {
    if a == [] {
      assert a + b == b;
    } else {
      assert (a + b)[0] == a[0] && (a + b)[1..] == a[1..] + b;
      ChunkRecsAppend(id, a[1..], b);
      Associate(PieceRecs(id, a[0]), ChunkRecs(id, a[1..]), ChunkRecs(id, b));
    }
  }

  lemma {:induction false} ChunksCarry(id: u16, body: seq<Option<bytes>>)
    ensures Payloads(ChunkRecs(id, body)) == Total(body)
  {
    if body != [] {
      ChunksCarry(id, body[1..]);
      var s := match body[0] case None => [] case Some(s) => s;
      if s != [] {
        FlushCarries(StdIn, id, s);
        PayloadsAppend(FlushRecs(StdIn, id, s), ChunkRecs(id, body[1..]));
      } else {
        assert ChunkRecs(id, body) == ChunkRecs(id, body[1..]);
      }
    }
  }

  predicate InputPiece(id: u16, r: Rec)
  {
    r.rtype == StdIn && r.id == id && r.payload != []
  }

  lemma {:induction false} ChunksArePieces(id: u16, body: seq<Option<bytes>>)
    ensures forall k :: 0 <= k < |ChunkRecs(id, body)| ==> InputPiece(id, ChunkRecs(id, body)[k])
  {
    if body != [] {
      ChunksArePieces(id, body[1..]);
      var first := match body[0] case None => [] case Some(s) => if s == [] then [] else FlushRecs(StdIn, id, s);
      if first != [] {
        FlushCarries(StdIn, id, body[0].value);
        assert forall k :: 0 <= k < |first| ==> first[k] in first;
      }
      assert ChunkRecs(id, body) == first + ChunkRecs(id, body[1..]);
    }
  }

  /**
   * Short bodies never look complete: the application sees the end of the input exactly when nothing is missing,
   * an abort otherwise, and before that only nonempty records carrying the chunks.
   */
  lemma StdInEndsWhenComplete(id: u16, body: seq<Option<bytes>>, announced: nat)
    requires announced < 0x1_0000_0000_0000_0000
    ensures var all, recs := Flatten(GoodChunks(body)), Deframe(WireBytes(StdInRecs(id, body, announced)));
            var n := |recs| - 1;
            && n >= 0 && Payloads(recs[..n]) == all
            && (forall k :: 0 <= k < n ==> InputPiece(id, recs[k]))
            && recs[n] == (if (announced - |all|) % 0x1_0000_0000_0000_0000 != 0 then Rec(AbortRequest, id, [])
                           else Rec(StdIn, id, []))
            && (|all| < 0x1_0000_0000_0000_0000 ==> (recs[n] == Rec(StdIn, id, []) <==> |all| == announced))
  {
    TotalIsGood(body);
    DeframeWire(StdInRecs(id, body, announced));
    ChunksCarry(id, body);
    ChunksArePieces(id, body);
    var recs := StdInRecs(id, body, announced);
    assert recs[..|recs| - 1] == ChunkRecs(id, body);
    if |Total(body)| < USIZE {
      WrapIsExact(announced, |Total(body)|);
    }
  }

  lemma WrapIsExact(announced: nat, sent: nat)
    requires announced < USIZE && sent < USIZE
    ensures Missing(announced, sent) == 0 <==> announced == sent
  {
    var d := announced - sent;
    if d >= 0 {
      assert d % USIZE == d;
    } else {
      assert d % USIZE == d + USIZE;
    }
  }

  /** One more chunk, in wrapping arithmetic. */
  lemma MissingStep(announced: nat, sent: nat, s: nat)
    requires s < USIZE
    ensures var m := Missing(announced, sent);
            Missing(announced, sent + s) == if m >= s then m - s else m + USIZE - s
  {}

  /** Sends a body as standard input, one chunk at a time. */
  method SendBody(io: FCGIWriter, id: u16, announced: nat, body: seq<Option<bytes>>) returns (r: StreamResult)
    requires announced < USIZE
    requires forall k :: 0 <= k < |body| && body[k].Some? ==> |body[k].value| < USIZE
    modifies io
    ensures Wrote(old(io.wire), io.wire, WireBytes(StdInRecs(id, body, announced)), r != IoError)
    ensures r != IoError ==> (r == TooShort <==> Missing(announced, |Total(body)|) > 0)
  {
    var len := announced;
    var ok;
    ghost var w0 := io.wire;
    for i := 0 to |body|
      invariant io.wire == w0 + WireBytes(ChunkRecs(id, body[..i]))
      invariant len == Missing(announced, |Total(body[..i])|)
    {
      NextChunk(id, body, i, announced);
      if body[i].Some? {
        var data := body[i].value;
        var s := |data|;
        if s == 0 {
          continue;
        }
        len := if len >= s then len - s else len + USIZE - s;
        ghost var done := WireBytes(ChunkRecs(id, body[..i]));
        ok := io.FlushDataChunk(data, id, StdIn);
        WroteThen(w0, w0 + done, io.wire, done, WireBytes(FlushRecs(StdIn, id, data)), ok);
        if !ok {
          ChunksStart(id, body, i + 1, announced, w0, io.wire);
          return IoError;
        }
      }
    }
    assert body[..|body|] == body;
    ghost var sent := ChunkRecs(id, body);
    if len > 0 {
      WireAppend(sent, [AbortRec(id)]);
      ok := io.EncodeAbort(id);
      WroteThen(w0, w0 + WireBytes(sent), io.wire, WireBytes(sent), WireBytes([AbortRec(id)]), ok);
      return if ok then TooShort else IoError;
    }
    WireAppend(sent, [Rec(StdIn, id, [])]);
    assert FlushRecs(StdIn, id, []) == [Rec(StdIn, id, [])];
    ok := io.FlushDataChunk([], id, StdIn);
    WroteThen(w0, w0 + WireBytes(sent), io.wire, WireBytes(sent), WireBytes([Rec(StdIn, id, [])]), ok);
    return if ok then Sent else IoError;
  }

  lemma NextRecs(id: u16, body: seq<Option<bytes>>, i: nat)
    requires i < |body|
    ensures ChunkRecs(id, body[..i + 1]) == ChunkRecs(id, body[..i]) + PieceRecs(id, body[i])
    ensures WireBytes(ChunkRecs(id, body[..i + 1]))
         == WireBytes(ChunkRecs(id, body[..i])) + WireBytes(PieceRecs(id, body[i]))
  {
    assert body[..i + 1] == body[..i] + [body[i]];
    ChunkRecsAppend(id, body[..i], [body[i]]);
    OneChunk(id, body[i]);
    WireAppend(ChunkRecs(id, body[..i]), PieceRecs(id, body[i]));
  }

  lemma NextMissing(body: seq<Option<bytes>>, i: nat, announced: nat)
    requires i < |body| && (body[i].Some? ==> |body[i].value| < USIZE)
    ensures var s := match body[i] case None => 0 case Some(s) => |s|;
            var m := Missing(announced, |Total(body[..i])|);
            Missing(announced, |Total(body[..i + 1])|) == if m >= s then m - s else m + USIZE - s
  {
    assert body[..i + 1] == body[..i] + [body[i]];
    TotalAppend(body[..i], [body[i]]);
    OneChunk(0, body[i]);
    MissingStep(announced, |Total(body[..i])|, match body[i] case None => 0 case Some(s) => |s|);
  }

  lemma NextChunk(id: u16, body: seq<Option<bytes>>, i: nat, announced: nat)
    requires i < |body| && (body[i].Some? ==> |body[i].value| < USIZE)
    ensures var s := match body[i] case None => [] case Some(s) => s;
            && (s == [] ==> ChunkRecs(id, body[..i + 1]) == ChunkRecs(id, body[..i]))
            && (s != [] ==> WireBytes(ChunkRecs(id, body[..i + 1]))
                            == WireBytes(ChunkRecs(id, body[..i])) + WireBytes(FlushRecs(StdIn, id, s)))
            && var m := Missing(announced, |Total(body[..i])|);
               Missing(announced, |Total(body[..i + 1])|) == if m >= |s| then m - |s| else m + USIZE - |s|
  {
    NextRecs(id, body, i);
    NextMissing(body, i, announced);
    assert ChunkRecs(id, body[..i]) + [] == ChunkRecs(id, body[..i]);
  }

  lemma OneChunk(id: u16, piece: Option<bytes>)
    ensures ChunkRecs(id, [piece]) == PieceRecs(id, piece)
    ensures Total([piece]) == match piece case None => [] case Some(s) => s
  {
    var one := [piece];
    assert one[0] == piece && one[1..] == [] && ChunkRecs(id, one[1..]) == [] && Total(one[1..]) == [];
    assert PieceRecs(id, piece) + [] == PieceRecs(id, piece);
  }

  lemma ChunksStart(id: u16, body: seq<Option<bytes>>, i: nat, announced: nat, w0: bytes, w: bytes)
    requires i <= |body| && Wrote(w0, w, WireBytes(ChunkRecs(id, body[..i])), false)
    ensures Wrote(w0, w, WireBytes(StdInRecs(id, body, announced)), false)
  {
    assert body == body[..i] + body[i..];
    ChunkRecsAppend(id, body[..i], body[i..]);
    var recs, all := ChunkRecs(id, body[..i]), StdInRecs(id, body, announced);
    var rest := all[|recs|..];
    assert all == recs + rest;
    WireAppend(recs, rest);
    WroteShort(w0, w, WireBytes(recs), WireBytes(rest));
  }
}
