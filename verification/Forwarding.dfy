/** The client's entry: permits, the check for a dead connection, and the first critical section of a request. */
module Forwarding {
  import opened Octets
  import opened Records
  import opened Reader
  import opened Framing
  import opened NameValue
  import opened Codec
  import opened Requests
  import opened Connection
  import opened Client

  /** What becomes of the connection before a request begins on it. */
  datatype Readiness = Alive | Replaced | Unusable | Wrecked

  /**
   * Refused: the permit is given back and nothing was begun. Started: slot rid is taken, on a new connection if anew;
   * ok if all was written.
   */
  datatype Opening = Refused | Crashing | Started(rid: nat, anew: bool, ok: bool)

  /**
   * A poll that reports the connection closed or not connected leads to a reconnect; any other error is passed on.
   */
  function ReadinessOf(state: ConState, notConnected: bool, connects: bool): Readiness
  {
    match state
    case Crashed => Wrecked
    case Closed => if connects then Replaced else Unusable
    case Failed => if notConnected && connects then Replaced else Unusable
    case _ => Alive
  }

  /**
   * When the connection is kept, replaced, or given up, from the bytes offered and the header saved: the socket is
   * heard only if nothing is unread, and all is over at the end of the stream, and where the read buffer holds only a
   * part of a header or of late padding.
   */
  lemma ReadyWhen(slots: Slab, saved: Option<Header>, unread: bytes, ev: SocketEvent,
                  notConnected: bool, connects: bool)
    requires Owing(saved)
    ensures var state := PollStep(slots, saved, unread, ev).state;
            var c := ReadinessOf(state, notConnected, connects);
            var data := if unread != [] then unread else if ev.Arrived? then ev.data else [];
            var over := match saved
                        case None => |data| < 8
                        case Some(h) => data == [] || (h.contentLength == 0 && |data| < h.paddingLength);
            var quiet, failed := unread == [] && ev == NotReady, unread == [] && ev == Fault;
            && (c == Wrecked <==> state == Crashed)
            && (c != Wrecked ==>
                  && (c == Alive <==> quiet || (!failed && !over))
                  && (c == Replaced <==> connects && if failed then notConnected else !quiet && over)
                  && (c == Unusable <==>
                        if failed then !notConnected || !connects else !quiet && over && !connects))
  {
    if unread != [] || (ev.Arrived? && ev.data != []) {
      ClosedVerdictOffered(slots, saved, unread, ev);
    }
  }

  lemma ClosedVerdictOffered(slots: Slab, saved: Option<Header>, unread: bytes, ev: SocketEvent)
    requires Owing(saved) && Offered(unread, ev).Arrived? && Offered(unread, ev).data != []
    ensures var data, state := Offered(unread, ev).data, PollStep(slots, saved, unread, ev).state;
            state == Crashed || state == if match saved
                                            case None => |data| < HEADER_LEN
                                            case Some(h) => h.contentLength == 0 && |data| < h.paddingLength
                                         then Closed else Progress
  {
    var data := Offered(unread, ev).data;
    if !Distribute(slots, saved, data).panicked {
      ClosedVerdict(slots, saved, data);
    }
  }

  /** The records of a stretch of bytes occupy no vacant entry. */
  lemma {:induction false} VacantAfterReading(slots: Slab, saved: Option<Header>, data: bytes, x: nat)
    requires Owing(saved) && x < |slots| && slots[x].None?
    ensures Distribute(slots, saved, data).slots[x].None?
    decreases |data|
  {
    ReaderProgress(saved, data);
    match NextFragment(saved, data) {
      case Delivered(f, s, rest) =>
        var body := ParseBody(f.content, f.header.rtype);
        if body.Some? {
          VacantAfterReading(Dispatch(slots, f.header.requestId, body.value), s, rest, x);
        }
      case _ =>
    }
  }

  lemma VacantAfterPoll(slots: Slab, saved: Option<Header>, unread: bytes, ev: SocketEvent, x: nat)
    requires Owing(saved) && x < |slots| && slots[x].None?
    ensures PollStep(slots, saved, unread, ev).slots[x].None?
  {
    match Offered(unread, ev) {
      case Arrived(data) => VacantAfterReading(slots, saved, data, x);
      case _ =>
    }
  }

  /** The slab can take one more request whose ID has sixteen bits. */
  predicate HasRoom(slots: Slab)
  {
    |slots| < 0xffff || (|slots| == 0xffff && exists x :: 0 <= x < |slots| && slots[x].None?)
  }

  lemma RoomAfterPoll(slots: Slab, saved: Option<Header>, unread: bytes, ev: SocketEvent)
    requires Owing(saved) && HasRoom(slots)
    ensures HasRoom(PollStep(slots, saved, unread, ev).slots)
  {
    if x :| 0 <= x < |slots| && slots[x].None? {
      VacantAfterPoll(slots, saved, unread, ev, x);
      assert PollStep(slots, saved, unread, ev).slots[x].None?;
    }
  }

  /** A new request takes entry x. */
  function Entered(slots: Slab, x: nat): Slab
    requires x <= |slots|
  {
    if x < |slots| then slots[x := Some(FRESH)] else slots + [Some(FRESH)]
  }

  /**
   * The slab grows only if no entry is vacant. Exactly one entry is new: nothing is buffered for it yet, and it is
   * neither ended nor aborted.
   */
  lemma EntryInNumbers(slots: Slab, x: nat)
    requires Vacant(slots, x)
    ensures if x < |slots| then slots[x] == None
            else x == |slots| && forall y :: 0 <= y < |slots| ==> slots[y] != None
    ensures var r := Entered(slots, x);
            && |r| == (if x < |slots| then |slots| else |slots| + 1)
            && r[x] == Some(Request([], false, false, false))
            && forall y :: 0 <= y < |slots| && y != x ==> r[y] == slots[y]
  {}

  /** The wire grew by the opening of a request, or by a part of it on failure. */
  predicate WroteOpening(before: bytes, after: bytes, params: seq<Pair>, hasBody: bool, rejected: bool, r: Opening)
    requires AllEncodable(params) && r.Started? && r.rid < 0xffff
  {
    Wrote(before, after, WireBytes(OpeningRecs(r.rid + 1, EncodePairs(params), hasBody, rejected)), r.ok)
  }

  class Gateway {
    const inner: InnerConnection
    var io: FCGIWriter
    var permits: nat

    constructor (max: u16)
      ensures permits == max && inner.slots == [] && inner.unread == [] && inner.parser.current == None
      ensures io.wire == []
    {
      inner := new InnerConnection();
      io := new FCGIWriter();
      permits := max;
    }

    method Acquire() returns (ok: bool)
      modifies this`permits
      ensures ok == (old(permits) > 0)
      ensures permits == if ok then old(permits) - 1 else old(permits)
    {
      ok := permits > 0;
      if ok {
        permits := permits - 1;
      }
    }

    /** The slab takes some vacant entry and grows only if there is none. */
    method VacantEntry() returns (x: nat)
      ensures Vacant(inner.slots, x)
    {
      x := 0;
      while x < |inner.slots| && inner.slots[x].Some?
        invariant x <= |inner.slots|
        invariant forall y :: 0 <= y < x ==> inner.slots[y].Some?
      {
        x := x + 1;
      }
    }

    /** Polls the connection; a dead one is replaced by a new transport with an idle reader, if that connects. */
    method CheckAlive(ev: SocketEvent, notConnected: bool, connects: bool) returns (c: Readiness)
      requires Owing(inner.parser.current)
      modifies this`io, inner, inner.parser
      ensures var p := PollStep(old(inner.slots), old(inner.parser.current), old(inner.unread), ev);
              && c == ReadinessOf(p.state, notConnected, connects)
              && (c != Wrecked ==> inner.slots == p.slots)
              && (c == Alive ==> io == old(io) && inner.parser.current == p.saved && inner.unread == p.unread)
              && (c == Replaced ==>
                    fresh(io) && io.wire == [] && inner.parser.current == None && inner.unread == [])
      ensures c != Wrecked ==>
                var saved, unread := old(inner.parser.current), old(inner.unread);
                var data := if unread != [] then unread else if ev.Arrived? then ev.data else [];
                var over := match saved
                            case None => |data| < 8
                            case Some(h) => data == [] || (h.contentLength == 0 && |data| < h.paddingLength);
                var quiet, failed := unread == [] && ev == NotReady, unread == [] && ev == Fault;
                && (c == Alive <==> quiet || (!failed && !over))
                && (c == Replaced <==> connects && if failed then notConnected else !quiet && over)
    {
      ReadyWhen(inner.slots, inner.parser.current, inner.unread, ev, notConnected, connects);
      var state := inner.PollResp(ev);
      if state == Crashed {
        return Wrecked;
      }
      if state == Failed && !notConnected {
        return Unusable;
      }
      if state != Closed && state != Failed {
        return Alive;
      }
      NotifiedAlready(old(inner.slots), old(inner.parser.current), old(inner.unread), ev);
      inner.NotifyEveryone();
      if !connects {
        return Unusable;
      }
      io := new FCGIWriter();
      inner.parser := new RecordReader();
      inner.unread := [];
      return Replaced;
    }

    /** Polls the connection, and takes an entry for the request or, if the connection is unusable, gives it up. */
    method Claim(ev: SocketEvent, notConnected: bool, connects: bool) returns (c: Readiness, x: nat)
      requires Owing(inner.parser.current) && HasRoom(inner.slots)
      modifies this, inner, inner.parser
      ensures var p := PollStep(old(inner.slots), old(inner.parser.current), old(inner.unread), ev);
              && c == ReadinessOf(p.state, notConnected, connects)
              && permits == (if c == Unusable then old(permits) + 1 else old(permits))
              && (c == Unusable ==> inner.slots == p.slots)
              && (c == Alive || c == Replaced ==>
                    x < 0xffff && Vacant(p.slots, x) && inner.slots == Entered(p.slots, x))
              && (c == Alive ==> inner.parser.current == p.saved && inner.unread == p.unread)
              && (c == Replaced ==> inner.parser.current == None && inner.unread == [])
      ensures c == Alive ==> io == old(io) && io.wire == old(io.wire)
      ensures c == Replaced ==> fresh(io) && io.wire == []
    {
      RoomAfterPoll(inner.slots, inner.parser.current, inner.unread, ev);
      x := 0;
      c := CheckAlive(ev, notConnected, connects);
      if c == Alive || c == Replaced {
        x := VacantEntry();
        inner.slots := Entered(inner.slots, x);
      } else if c == Unusable {
        permits := permits + 1;
      }
    }

    /**
     * Everything from taking the lock to having sent the parameters. A multi-line header stops the parameters in
     * the middle and aborts the request, which then keeps its slot; so does a request whose opening fails.
     */
    method Begin(ev: SocketEvent, notConnected: bool, connects: bool, params: seq<Pair>, hasBody: bool, rejected: bool)
      returns (r: Opening)
      requires Owing(inner.parser.current) && AllEncodable(params) && HasRoom(inner.slots)
      modifies this, inner, inner.parser, io
      ensures var p := PollStep(old(inner.slots), old(inner.parser.current), old(inner.unread), ev);
              var c := ReadinessOf(p.state, notConnected, connects);
              && (r == Crashing <==> c == Wrecked)
              && (r == Refused <==> c == Unusable)
              && permits == (if r == Refused then old(permits) + 1 else old(permits))
              && (r == Refused ==> inner.slots == p.slots)
              && (r.Started? ==>
                    && r.rid < 0xffff && Vacant(p.slots, r.rid) && inner.slots == Entered(p.slots, r.rid)
                    && (r.anew <==> c == Replaced)
                    && inner.parser.current == (if r.anew then None else p.saved)
                    && inner.unread == (if r.anew then [] else p.unread)
                    && if r.anew then fresh(io) else io == old(io))
      ensures r.Started? ==> WroteOpening(if r.anew then [] else old(io.wire), io.wire, params, hasBody, rejected, r)
    {
      var c, x := Claim(ev, notConnected, connects);
      if c == Wrecked || c == Unusable {
        return if c == Wrecked then Crashing else Refused;
      }
      r := Open(x, c == Replaced, params, hasBody, rejected);
    }

    /** A lost connection has notified everybody already: notifying again changes nothing. */
    lemma NotifiedAlready(slots: Slab, saved: Option<Header>, unread: bytes, ev: SocketEvent)
      requires Owing(saved) && PollStep(slots, saved, unread, ev).state in {Closed, Failed}
      ensures var p := PollStep(slots, saved, unread, ev); NotifyAll(p.slots) == p.slots
    {}

    method Open(x: nat, anew: bool, params: seq<Pair>, hasBody: bool, rejected: bool) returns (r: Opening)
      requires AllEncodable(params) && x < 0xffff
      modifies io
      ensures r.Started? && r.rid == x && r.anew == anew
      ensures WroteOpening(old(io.wire), io.wire, params, hasBody, rejected, r)
    {
      var ok := WriteOpening(x + 1, params, hasBody, rejected);
      r := Started(x, anew, ok);
    }

    /** Begin record, parameters, and either their end or an abort; without a body also the end of the input. */
    method WriteOpening(id: u16, params: seq<Pair>, hasBody: bool, rejected: bool) returns (ok: bool)
      requires AllEncodable(params)
      modifies io
      ensures Wrote(old(io.wire), io.wire, WireBytes(OpeningRecs(id, EncodePairs(params), hasBody, rejected)), ok)
    {
      ghost var w0, s := io.wire, EncodePairs(params);
      ghost var b := [BeginRec(id, RESPONDER, KEEP_CONN)];
      ghost var p, e := ParamRecs(id, s, rejected), LastOpening(id, hasBody, rejected);
      OpeningParts(id, s, hasBody, rejected);
      ok := io.EncodeBegin(id, RESPONDER, KEEP_CONN);
      if !ok {
        WroteShort(w0, io.wire, WireBytes(b), WireBytes(p));
        WroteShort(w0, io.wire, WireBytes(b) + WireBytes(p), WireBytes(e));
        return;
      }
      ok := WriteParams(id, params, rejected);
      WroteThen(w0, w0 + WireBytes(b), io.wire, WireBytes(b), WireBytes(p), ok);
      if !ok {
        WroteShort(w0, io.wire, WireBytes(b) + WireBytes(p), WireBytes(e));
        return;
      }
      ghost var w1 := io.wire;
      ok := WriteLast(id, hasBody, rejected);
      WroteThen(w0, w1, io.wire, WireBytes(b) + WireBytes(p), WireBytes(e), ok);
    }

    /** A whole parameter stream, or as much of it as leaves the buffer before the header is refused. */
    method WriteParams(id: u16, params: seq<Pair>, rejected: bool) returns (ok: bool)
      requires AllEncodable(params)
      modifies io
      ensures Wrote(old(io.wire), io.wire, WireBytes(ParamRecs(id, EncodePairs(params), rejected)), ok)
    {
      if rejected {
        var kvw := new NameValuePairWriter(io, id, Params);
        assert kvw.buf[HEADER_LEN..] + EncodePairs(params) == EncodePairs(params);
        ok := kvw.Extend(params);
      } else {
        ok := io.EncodeKvp(id, Params, params);
      }
    }

    method WriteLast(id: u16, hasBody: bool, rejected: bool) returns (ok: bool)
      modifies io
      ensures Wrote(old(io.wire), io.wire, WireBytes(LastOpening(id, hasBody, rejected)), ok)
    {
      ok := true;
      if rejected {
        ok := io.EncodeAbort(id);
      } else if !hasBody {
        assert FlushRecs(StdIn, id, []) == [Rec(StdIn, id, [])];
        ok := io.FlushDataChunk([], id, StdIn);
      }
    }
  }

  /** The parts of an opening behind its begin record. */
  function ParamRecs(id: u16, s: bytes, rejected: bool): (r: seq<Rec>)
    ensures Sized(r)
  {
    if rejected then FullRecs(Params, id, s) else StreamRecs(Params, id, s)
  }

  function LastOpening(id: u16, hasBody: bool, rejected: bool): (r: seq<Rec>)
    ensures Sized(r)
  {
    if rejected then [AbortRec(id)] else if hasBody then [] else [Rec(StdIn, id, [])]
  }

  lemma OpeningParts(id: u16, s: bytes, hasBody: bool, rejected: bool)
    ensures WireBytes(OpeningRecs(id, s, hasBody, rejected))
         == WireBytes([BeginRec(id, RESPONDER, KEEP_CONN)]) + WireBytes(ParamRecs(id, s, rejected))
            + WireBytes(LastOpening(id, hasBody, rejected))
  {
    var b, p, e := [BeginRec(id, RESPONDER, KEEP_CONN)], ParamRecs(id, s, rejected), LastOpening(id, hasBody, rejected);
    assert OpeningRecs(id, s, hasBody, rejected) == b + p + e;
    WireAppend(b, p);
    WireAppend(b + p, e);
  }
}
