/**
 * The bytes of a connection: reader, read buffer and network carry the peer's records in pieces of any size, and what
 * a poll finds in them is an event of the transition system. Likewise what a write leaves on the wire.
 */
module Link {
  import opened Octets
  import opened Records
  import opened Reader
  import opened Framing
  import opened Codec
  import opened Requests
  import opened Connection
  import opened Forwarding
  import opened Client
  import opened Ownership
  import opened Delivery
  import opened Senders
  import opened Runs
  import EndToEnd

  // ---------- the bytes of the peer's records ----------

  /** A record that the peer writes for instance inst. */
  datatype Message = Message(inst: nat, p: EndToEnd.Padded)

  predicate Answer(m: Message)
  {
    && EndToEnd.Writable(m.p) && EndToEnd.GoodRec(m.p.rec)
    && (m.p.rec.rtype == StdOut || m.p.rec.rtype == StdErr || m.p.rec.rtype == EndRequest)
  }

  predicate AllAnswers(msgs: seq<Message>)
  {
    forall k :: 0 <= k < |msgs| ==> Answer(msgs[k])
  }

  function MessageBytes(msgs: seq<Message>): bytes
    requires AllAnswers(msgs)
  {
    if msgs == [] then [] else EndToEnd.PaddedBytes(msgs[0].p) + MessageBytes(msgs[1..])
  }

  /** The header h stands for the rest of message m: some last bytes of its content, and its padding. */
  predicate PartOf(h: Header, m: Message)
  {
    && h.rtype == m.p.rec.rtype && h.requestId == m.p.rec.id
    && h.contentLength <= |m.p.rec.payload| && h.paddingLength == |m.p.pad|
  }

  function Remainder(h: Header, m: Message): bytes
    requires PartOf(h, m)
  {
    m.p.rec.payload[|m.p.rec.payload| - h.contentLength..] + m.p.pad
  }

  /** The bytes to come are those of the messages; the reader may be in the middle of the first of them. */
  predicate Carries(saved: Option<Header>, stream: bytes, msgs: seq<Message>)
  {
    && AllAnswers(msgs) && Owing(saved)
    && match saved
       case None => stream == MessageBytes(msgs)
       case Some(h) => Inside(h, stream, msgs)
  }

  predicate Inside(h: Header, stream: bytes, msgs: seq<Message>)
    requires AllAnswers(msgs)
  {
    msgs != [] && PartOf(h, msgs[0]) && stream == Remainder(h, msgs[0]) + MessageBytes(msgs[1..])
  }

  /** What one step of the reader finds is a piece of the first message; left are the messages then not finished. */
  predicate PieceOf(step: ReadStep, data: bytes, stream: bytes, msgs: seq<Message>, left: seq<Message>)
    requires data <= stream
  {
    match step
    case Malformed => false
    case Starved(s, rest) =>
      IsRest(data, rest) && left == msgs && Carries(s, stream[|data| - |rest|..], msgs)
    case Delivered(f, s, rest) =>
      IsRest(data, rest) && Carries(s, stream[|data| - |rest|..], left) && FromFirst(f, s, msgs, left)
  }

  /** The fragment f comes from the first message: its end, or a part of it. */
  predicate FromFirst(f: Fragment, s: Option<Header>, msgs: seq<Message>, left: seq<Message>)
  {
    && msgs != [] && f.header.rtype == msgs[0].p.rec.rtype && f.header.requestId == msgs[0].p.rec.id
    && (left == msgs[1..]
        || (left == msgs && s.Some? && s.value.rtype == f.header.rtype
            && (s.value.contentLength > 0 ==> |f.content| < |msgs[0].p.rec.payload|)))
  }

  predicate IsRest(data: bytes, rest: bytes)
  {
    |rest| <= |data| && rest == data[|data| - |rest|..]
  }

  /** Dropping some of the content, all of it, or the padding too. */
  lemma DropFrom(content: bytes, pad: bytes, tail: bytes, k: nat)
    requires k <= |content|
    ensures (content + pad + tail)[k..] == content[k..] + pad + tail
    ensures (content + pad + tail)[|content|..] == pad + tail
    ensures (content + pad + tail)[|content| + |pad|..] == tail
  {}

  lemma TakeShort(h: Header, data: bytes, stream: bytes, msgs: seq<Message>)
    requires AllAnswers(msgs) && Inside(h, stream, msgs) && data <= stream && 0 < |data| < h.contentLength
    ensures PieceOf(TakeFragment(h, data), data, stream, msgs, msgs)
  {
    var n, payload := h.contentLength as int, msgs[0].p.rec.payload;
    var content := payload[|payload| - n..];
    DropFrom(content, msgs[0].p.pad, MessageBytes(msgs[1..]), |data|);
    assert content[|data|..] == payload[|payload| - (n - |data|)..];
    assert data[|data|..] == [];
  }

  /** Behind the content only the padding of the message is to come. */
  lemma InsidePadding(h: Header, stream: bytes, msgs: seq<Message>)
    requires AllAnswers(msgs) && Inside(h, stream, msgs)
    ensures h.contentLength <= |stream| && Inside(h.(contentLength := 0), stream[h.contentLength..], msgs)
  {
    var n, payload := h.contentLength as int, msgs[0].p.rec.payload;
    DropFrom(payload[|payload| - n..], msgs[0].p.pad, MessageBytes(msgs[1..]), 0);
    assert payload[|payload|..] + msgs[0].p.pad == msgs[0].p.pad;
  }

  lemma TakeContent(h: Header, data: bytes, stream: bytes, msgs: seq<Message>)
    requires AllAnswers(msgs) && Inside(h, stream, msgs) && data <= stream
    requires h.contentLength <= |data| < h.contentLength as int + h.paddingLength && h.contentLength > 0
    ensures PieceOf(TakeFragment(h, data), data, stream, msgs, msgs)
  {
    InsidePadding(h, stream, msgs);
  }

  lemma TakeRest(h: Header, data: bytes, stream: bytes, msgs: seq<Message>)
    requires AllAnswers(msgs) && Inside(h, stream, msgs) && data <= stream
    requires |data| >= h.contentLength as int + h.paddingLength && (data == [] ==> h.contentLength == 0)
    ensures PieceOf(TakeFragment(h, data), data, stream, msgs, msgs[1..])
  {
    var n, payload := h.contentLength as int, msgs[0].p.rec.payload;
    DropFrom(payload[|payload| - n..], msgs[0].p.pad, MessageBytes(msgs[1..]), 0);
  }

  /** The messages not finished after a step of the reader. */
  function LeftBy(step: ReadStep, msgs: seq<Message>): seq<Message>
  {
    if step.Delivered? && step.saved.None? && msgs != [] then msgs[1..] else msgs
  }

  lemma TakePiece(h: Header, data: bytes, stream: bytes, msgs: seq<Message>)
    requires AllAnswers(msgs) && Inside(h, stream, msgs) && data <= stream
    ensures var step := TakeFragment(h, data); PieceOf(step, data, stream, msgs, LeftBy(step, msgs))
  {
    if |data| >= h.contentLength as int + h.paddingLength {
      TakeRest(h, data, stream, msgs);
    } else if data == [] || h.contentLength == 0 {
      assert stream[0..] == stream && data[0..] == data;
    } else if |data| < h.contentLength {
      TakeShort(h, data, stream, msgs);
    } else {
      TakeContent(h, data, stream, msgs);
    }
  }

  lemma NextPiece(saved: Option<Header>, data: bytes, stream: bytes, msgs: seq<Message>)
    requires Carries(saved, stream, msgs) && data <= stream
    ensures var step := NextFragment(saved, data); PieceOf(step, data, stream, msgs, LeftBy(step, msgs))
  {
    if saved.Some? {
      TakePiece(saved.value, data, stream, msgs);
    } else if |data| < HEADER_LEN {
      assert stream[0..] == stream && data[0..] == data;
    } else {
      var h := EndToEnd.PaddedHeader(msgs[0].p);
      HeaderFirst(data, stream, msgs);
      TakePiece(h, data[HEADER_LEN..], stream[HEADER_LEN..], msgs);
      var step := TakeFragment(h, data[HEADER_LEN..]);
      BehindHeader(step, data, stream, msgs, LeftBy(step, msgs));
    }
  }

  lemma HeaderFirst(data: bytes, stream: bytes, msgs: seq<Message>)
    requires AllAnswers(msgs) && stream == MessageBytes(msgs) && data <= stream && |data| >= HEADER_LEN
    ensures msgs != []
    ensures var h := EndToEnd.PaddedHeader(msgs[0].p);
            && ParseHeader(data) == Some(h) && Inside(h, stream[HEADER_LEN..], msgs)
            && data[HEADER_LEN..] <= stream[HEADER_LEN..]
  {
    HeaderOf(msgs[0], MessageBytes(msgs[1..]));
    assert data[..HEADER_LEN] == stream[..HEADER_LEN];
    ParseHeaderPrefix(data);
    ParseHeaderPrefix(stream);
  }

  /** The header of a message, and what follows it. */
  lemma HeaderOf(m: Message, tail: bytes)
    requires Answer(m)
    ensures var h, stream := EndToEnd.PaddedHeader(m.p), EndToEnd.PaddedBytes(m.p) + tail;
            && |stream| >= HEADER_LEN && ParseHeader(stream) == Some(h)
            && PartOf(h, m) && stream[HEADER_LEN..] == Remainder(h, m) + tail
  {
    var h := EndToEnd.PaddedHeader(m.p);
    var head, stream := HeaderBytes(h), EndToEnd.PaddedBytes(m.p) + tail;
    assert stream == head + m.p.rec.payload + m.p.pad + tail;
    DropHeader(head, m.p.rec.payload, m.p.pad, tail);
    assert stream[..HEADER_LEN] == head + [];
    HeaderRoundTrip(h, []);
    ParseHeaderPrefix(stream);
    assert m.p.rec.payload[0..] == m.p.rec.payload;
  }

  lemma DropHeader(head: bytes, a: bytes, b: bytes, c: bytes)
    ensures (head + a + b + c)[..|head|] == head
    ensures (head + a + b + c)[|head|..] == a + b + c
  {}

  lemma BehindHeader(step: ReadStep, data: bytes, stream: bytes, msgs: seq<Message>, left: seq<Message>)
    requires HEADER_LEN <= |data| && data <= stream && data[HEADER_LEN..] <= stream[HEADER_LEN..]
    requires PieceOf(step, data[HEADER_LEN..], stream[HEADER_LEN..], msgs, left)
    ensures PieceOf(step, data, stream, msgs, left)
  {
    if !step.Malformed? {
      var k := |data| - HEADER_LEN - |step.rest|;
      assert data[HEADER_LEN..][k..] == data[HEADER_LEN + k..];
      assert stream[HEADER_LEN..][k..] == stream[HEADER_LEN + k..];
    }
  }

  // ---------- a read feeds the transition system ----------

  /** The end record of the first message has been delivered, and only its padding is still to come. */
  predicate EndTaken(saved: Option<Header>)
  {
    saved.Some? && saved.value.rtype == EndRequest && saved.value.contentLength == 0
  }

  /** The messages answer requests of this connection, none of them after the request's end record. */
  predicate Answering(w: World, saved: Option<Header>, msgs: seq<Message>)
    requires Shape(w)
  {
    && (forall k :: 0 <= k < |msgs| ==>
          && msgs[k].inst < |w.insts| && w.insts[msgs[k].inst].epoch == w.epoch
          && msgs[k].p.rec.id == IdOf(w, msgs[k].inst)
          && (w.insts[msgs[k].inst].peerEnded ==> k == 0 && EndTaken(saved)))
    && (forall k, l :: 0 <= k < l < |msgs| && msgs[k].p.rec.rtype == EndRequest ==> msgs[l].inst != msgs[k].inst)
  }

  function PeerSteps(recs: seq<PeerRec>): (r: seq<Step>)
    ensures |r| == |recs|
  {
    seq(|recs|, k requires 0 <= k < |recs| => Step.Peer(recs[k].inst, recs[k].body))
  }

  /** The fragment f is the record p in flight, under the ID of its request. */
  predicate Match(w: World, f: Fragment, p: PeerRec)
    requires Shape(w)
  {
    ParseBody(f.content, f.header.rtype) == Some(p.body) && p.inst < |w.insts| && f.header.requestId == IdOf(w, p.inst)
  }

  /** Records have come in: w has become v, which differs only in what the peer has sent. */
  predicate Supplied(w: World, v: World, recs: seq<PeerRec>)
  {
    && |v.insts| == |w.insts| && v == w.(insts := v.insts, inflight := w.inflight + recs)
    && forall i :: 0 <= i < |w.insts| ==>
         v.insts[i] == w.insts[i].(sent := v.insts[i].sent, peerEnded := v.insts[i].peerEnded)
  }

  /** One step of the peer, which sends the fragment f. */
  predicate Sends(w: World, p: PeerRec, f: Fragment, v: World)
    requires Shape(w)
  {
    Enabled(w, Peer(p.inst, p.body)) && v == Take(w, Peer(p.inst, p.body)) && Supplied(w, v, [p]) && Match(w, f, p)
  }

  /** One piece of the first message is one step of the peer. */
  lemma PieceSupplied(w: World, saved: Option<Header>, f: Fragment, s: Option<Header>, msgs: seq<Message>,
                      left: seq<Message>, p: PeerRec) returns (v: World)
    requires Shape(w) && !w.dead && AllAnswers(msgs) && FromFirst(f, s, msgs, left) && Answering(w, saved, msgs)
    requires EndTaken(saved) ==> f.content == [] && f.header.rtype == EndRequest
    requires ParseBody(f.content, f.header.rtype) == Some(p.body) && p.inst == msgs[0].inst
    ensures Sends(w, p, f, v) && Answering(v, s, left)
  {
    v := Take(w, Peer(p.inst, p.body));
    PeerGives(w, p.inst, p.body);
    assert forall k :: 0 <= k < |msgs[1..]| ==> msgs[1..][k] == msgs[k + 1];
  }

  lemma PeerGives(w: World, i: nat, body: Body)
    requires Shape(w) && Enabled(w, Peer(i, body))
    ensures var v := Take(w, Peer(i, body));
            && Supplied(w, v, [PeerRec(i, body)])
            && forall j :: 0 <= j < |w.insts| ==>
                 v.insts[j].peerEnded == if j == i then body.EndRequestBody? else w.insts[j].peerEnded
  {}

  /** What a read takes out of the messages: a record in flight for each fragment, and the messages not finished. */
  datatype Taken = Taken(recs: seq<PeerRec>, left: seq<Message>)

  function Unpack(saved: Option<Header>, data: bytes, msgs: seq<Message>): Taken
    requires Owing(saved)
    decreases |data|
  {
    ReaderProgress(saved, data);
    var step := NextFragment(saved, data);
    if !step.Delivered? || msgs == [] || ParseBody(step.frag.content, step.frag.header.rtype).None? then
      Taken([], msgs)
    else
      var t := Unpack(step.saved, step.rest, LeftBy(step, msgs));
      var body := ParseBody(step.frag.content, step.frag.header.rtype).value;
      t.(recs := [PeerRec(msgs[0].inst, body)] + t.recs)
  }

  /** Of an end record a saved header owes the whole body or nothing of it. */
  predicate EndWhole(saved: Option<Header>)
  {
    saved.Some? && saved.value.rtype == EndRequest ==> saved.value.contentLength in {0, 8}
  }

  /** The fragments are records that the peer sends. */
  predicate SentAs(w: World, fs: seq<Fragment>, recs: seq<PeerRec>, v: World)
    requires Shape(w)
  {
    && Exec(w, PeerSteps(recs)) == Some(v) && Supplied(w, v, recs) && Shape(v)
    && |recs| == |fs| && (forall k :: 0 <= k < |recs| ==> Match(w, fs[k], recs[k]))
  }

  /** What a read leaves to come. */
  predicate Leaves(v: World, d: Drained, data: bytes, stream: bytes, left: seq<Message>)
    requires Shape(v) && data <= stream
  {
    && IsRest(data, d.rest) && Carries(d.saved, stream[|data| - |d.rest|..], left) && Answering(v, d.saved, left)
    && !d.malformed && EndWhole(d.saved) && AtRest(d.saved, d.rest)
  }

  /** What a read has done: d is what the reader made of it, t the records, v the world they have been sent in. */
  predicate Fed(w: World, d: Drained, data: bytes, stream: bytes, t: Taken, v: World)
    requires Shape(w) && data <= stream
  {
    SentAs(w, d.frags, t.recs, v) && Leaves(v, d, data, stream, t.left)
  }

  predicate AllParse(fs: seq<Fragment>)
  {
    forall k :: 0 <= k < |fs| ==> ParseBody(fs[k].content, fs[k].header.rtype).Some?
  }

  lemma {:induction false} Feed(w: World, saved: Option<Header>, data: bytes, stream: bytes, msgs: seq<Message>)
      returns (v: World)
    requires Shape(w) && !w.dead && Carries(saved, stream, msgs) && Answering(w, saved, msgs) && data <= stream
    requires AllParse(Drain(saved, data).frags) && EndWhole(saved)
    ensures Fed(w, Drain(saved, data), data, stream, Unpack(saved, data, msgs), v)
    decreases |data|
  {
    EndStaysWhole(saved, data, stream, msgs);
    match NextFragment(saved, data) {
      case Starved(_, _) =>
        v := w;
        FedNothing(w, saved, data, stream, msgs);
      case Delivered(f, s, rest) =>
        var v1 := FirstFed(w, saved, data, stream, msgs, f, s, rest);
        v := Feed(v1, s, rest, stream[|data| - |rest|..], LeftBy(NextFragment(saved, data), msgs));
        FedThen(w, saved, data, stream, msgs, f, s, rest, v1, v);
    }
  }

  /** The first fragment is one step of the peer. */
  lemma FirstFed(w: World, saved: Option<Header>, data: bytes, stream: bytes, msgs: seq<Message>,
                 f: Fragment, s: Option<Header>, rest: bytes) returns (v: World)
    requires Shape(w) && !w.dead && Carries(saved, stream, msgs) && Answering(w, saved, msgs) && data <= stream
    requires NextFragment(saved, data) == Delivered(f, s, rest) && AllParse(Drain(saved, data).frags)
    requires EndWhole(saved)
    ensures ParseBody(f.content, f.header.rtype).Some? && msgs != []
    ensures Sends(w, PeerRec(msgs[0].inst, ParseBody(f.content, f.header.rtype).value), f, v)
    ensures var left := LeftBy(NextFragment(saved, data), msgs);
            && Shape(v) && !v.dead && IsRest(data, rest) && |rest| < |data| && rest <= stream[|data| - |rest|..]
            && Carries(s, stream[|data| - |rest|..], left) && Answering(v, s, left)
            && EndWhole(s) && AllParse(Drain(s, rest).frags)
  {
    var d := DrainNext(saved, data, f, s, rest);
    ParseFirst(f, d.frags);
    var p;
    p, v := OnePiece(w, saved, data, stream, msgs, f, s, rest);
    EndStaysWhole(saved, data, stream, msgs);
  }

  lemma FedThen(w: World, saved: Option<Header>, data: bytes, stream: bytes, msgs: seq<Message>,
                f: Fragment, s: Option<Header>, rest: bytes, v1: World, v: World)
    requires Shape(w) && Owing(saved) && data <= stream && NextFragment(saved, data) == Delivered(f, s, rest)
    requires msgs != [] && ParseBody(f.content, f.header.rtype).Some? && Owing(s)
    requires Sends(w, PeerRec(msgs[0].inst, ParseBody(f.content, f.header.rtype).value), f, v1)
    requires IsRest(data, rest) && rest <= stream[|data| - |rest|..]
    requires Fed(v1, Drain(s, rest), rest, stream[|data| - |rest|..],
                 Unpack(s, rest, LeftBy(NextFragment(saved, data), msgs)), v)
    ensures Fed(w, Drain(saved, data), data, stream, Unpack(saved, data, msgs), v)
  {
    var p := PeerRec(msgs[0].inst, ParseBody(f.content, f.header.rtype).value);
    var d := DrainNext(saved, data, f, s, rest);
    var t := UnpackNext(saved, data, msgs, f, s, rest);
    FedOneMore(w, v1, p, f, d, data, rest, stream, stream[|data| - |rest|..], t, v);
  }

  lemma UnpackNext(saved: Option<Header>, data: bytes, msgs: seq<Message>,
                   f: Fragment, s: Option<Header>, rest: bytes) returns (t: Taken)
    requires Owing(saved) && NextFragment(saved, data) == Delivered(f, s, rest)
    requires msgs != [] && ParseBody(f.content, f.header.rtype).Some?
    ensures Owing(s) && t == Unpack(s, rest, LeftBy(NextFragment(saved, data), msgs))
    ensures var p := PeerRec(msgs[0].inst, ParseBody(f.content, f.header.rtype).value);
            Unpack(saved, data, msgs) == t.(recs := [p] + t.recs)
  {
    ReaderProgress(saved, data);
    t := Unpack(s, rest, LeftBy(NextFragment(saved, data), msgs));
  }

  lemma FedNothing(w: World, saved: Option<Header>, data: bytes, stream: bytes, msgs: seq<Message>)
    requires Shape(w) && !w.dead && Carries(saved, stream, msgs) && Answering(w, saved, msgs) && data <= stream
    requires EndWhole(saved) && NextFragment(saved, data).Starved?
    ensures Fed(w, Drain(saved, data), data, stream, Unpack(saved, data, msgs), w)
  {
    var d := Drain(saved, data);
    assert Unpack(saved, data, msgs) == Taken([], msgs);
    NothingFed(w);
    LeavesAll(w, saved, data, stream, msgs, d);
  }

  lemma LeavesAll(w: World, saved: Option<Header>, data: bytes, stream: bytes, msgs: seq<Message>, d: Drained)
    requires Shape(w) && !w.dead && Carries(saved, stream, msgs) && Answering(w, saved, msgs) && data <= stream
    requires EndWhole(saved) && NextFragment(saved, data) == Starved(d.saved, d.rest) && d.frags == [] && !d.malformed
    ensures Leaves(w, d, data, stream, msgs)
  {
    StarvedRests(saved, data, stream, msgs, d.saved, d.rest);
    StillAnswering(w, saved, d.saved, msgs);
  }

  lemma StarvedRests(saved: Option<Header>, data: bytes, stream: bytes, msgs: seq<Message>,
                     s: Option<Header>, rest: bytes)
    requires Carries(saved, stream, msgs) && data <= stream && EndWhole(saved)
    requires NextFragment(saved, data) == Starved(s, rest)
    ensures IsRest(data, rest) && Carries(s, stream[|data| - |rest|..], msgs) && EndWhole(s) && AtRest(s, rest)
    ensures saved.Some? ==> s == saved
  {
    var step := StepTaken(saved, data, stream, msgs);
    assert step == Starved(s, rest);
  }

  /** What is known of one step of the reader, whatever it is. */
  lemma StepTaken(saved: Option<Header>, data: bytes, stream: bytes, msgs: seq<Message>) returns (step: ReadStep)
    requires Carries(saved, stream, msgs) && data <= stream && EndWhole(saved)
    ensures step == NextFragment(saved, data) && PieceOf(step, data, stream, msgs, LeftBy(step, msgs))
    ensures step.Starved? ==>
              EndWhole(step.saved) && AtRest(step.saved, step.rest) && (saved.Some? ==> step.saved == saved)
  {
    step := NextFragment(saved, data);
    NextPiece(saved, data, stream, msgs);
    EndStaysWhole(saved, data, stream, msgs);
    ReaderProgress(saved, data);
  }

  lemma OnePiece(w: World, saved: Option<Header>, data: bytes, stream: bytes, msgs: seq<Message>,
                 f: Fragment, s: Option<Header>, rest: bytes) returns (p: PeerRec, v: World)
    requires Shape(w) && !w.dead && Carries(saved, stream, msgs) && Answering(w, saved, msgs) && data <= stream
    requires NextFragment(saved, data) == Delivered(f, s, rest) && ParseBody(f.content, f.header.rtype).Some?
    ensures var left := LeftBy(NextFragment(saved, data), msgs);
            && Sends(w, p, f, v) && Answering(v, s, left)
            && IsRest(data, rest) && rest <= stream[|data| - |rest|..] && Carries(s, stream[|data| - |rest|..], left)
            && msgs != [] && p == PeerRec(msgs[0].inst, ParseBody(f.content, f.header.rtype).value)
  {
    DeliveredPiece(saved, data, stream, msgs, f, s, rest);
    p := PeerRec(msgs[0].inst, ParseBody(f.content, f.header.rtype).value);
    v := PieceSupplied(w, saved, f, s, msgs, LeftBy(NextFragment(saved, data), msgs), p);
  }

  lemma DeliveredPiece(saved: Option<Header>, data: bytes, stream: bytes, msgs: seq<Message>,
                       f: Fragment, s: Option<Header>, rest: bytes)
    requires Carries(saved, stream, msgs) && data <= stream && NextFragment(saved, data) == Delivered(f, s, rest)
    ensures var left := LeftBy(NextFragment(saved, data), msgs);
            && FromFirst(f, s, msgs, left) && IsRest(data, rest) && rest <= stream[|data| - |rest|..]
            && Carries(s, stream[|data| - |rest|..], left)
    ensures EndTaken(saved) ==> f.content == [] && f.header.rtype == EndRequest
  {
    NextPiece(saved, data, stream, msgs);
    if EndTaken(saved) {
      EndTakenPiece(saved, data, stream, msgs);
    }
    PrefixBehind(data, stream, |data| - |rest|);
  }

  /** An end record that came in parts has panicked the parser. */
  lemma EndStaysWhole(saved: Option<Header>, data: bytes, stream: bytes, msgs: seq<Message>)
    requires Carries(saved, stream, msgs) && data <= stream && EndWhole(saved)
    ensures match NextFragment(saved, data)
            case Delivered(f, s, rest) => ParseBody(f.content, f.header.rtype).Some? ==> EndWhole(s)
            case Starved(s, rest) => EndWhole(s)
            case Malformed => false
  {
    if saved.Some? {
      EndTakenWhole(saved.value, data);
    } else if |data| >= HEADER_LEN {
      HeaderFirst(data, stream, msgs);
      EndTakenWhole(EndToEnd.PaddedHeader(msgs[0].p), data[HEADER_LEN..]);
    }
  }

  lemma EndTakenWhole(h: Header, data: bytes)
    requires EndWhole(Some(h))
    ensures match TakeFragment(h, data)
            case Delivered(f, s, rest) => ParseBody(f.content, f.header.rtype).Some? ==> EndWhole(s)
            case Starved(s, rest) => EndWhole(s)
            case Malformed => false
  {}

  lemma DrainNext(saved: Option<Header>, data: bytes, f: Fragment, s: Option<Header>, rest: bytes) returns (d: Drained)
    requires Owing(saved) && NextFragment(saved, data) == Delivered(f, s, rest)
    ensures Owing(s) && |rest| < |data| && d == Drain(s, rest)
    ensures Drain(saved, data) == d.(frags := [f] + d.frags)
  {
    ReaderProgress(saved, data);
    d := Drain(s, rest);
  }

  lemma ParseFirst(f: Fragment, fs: seq<Fragment>)
    requires AllParse([f] + fs)
    ensures ParseBody(f.content, f.header.rtype).Some? && AllParse(fs)
  {
    assert ([f] + fs)[0] == f && forall k :: 0 <= k < |fs| ==> fs[k] == ([f] + fs)[k + 1];
  }

  lemma PrefixBehind(data: bytes, stream: bytes, m: nat)
    requires data <= stream && m <= |data|
    ensures data[m..] <= stream[m..]
  {}

  lemma NothingFed(w: World)
    requires Shape(w)
    ensures Exec(w, PeerSteps([])) == Some(w) && Supplied(w, w, [])
  {
    assert PeerSteps([]) == [] && w.inflight + [] == w.inflight;
  }

  /** A starved reader has at most taken a header. */
  lemma StillAnswering(w: World, saved: Option<Header>, s: Option<Header>, msgs: seq<Message>)
    requires Shape(w) && Answering(w, saved, msgs) && (saved.Some? ==> s == saved)
    ensures Answering(w, s, msgs)
  {}

  lemma EndTakenPiece(saved: Option<Header>, data: bytes, stream: bytes, msgs: seq<Message>)
    requires Carries(saved, stream, msgs) && EndTaken(saved)  && NextFragment(saved, data).Delivered?
    ensures NextFragment(saved, data).frag.content == [] && NextFragment(saved, data).frag.header.rtype == EndRequest
  {}

  lemma SuppliedTwice(w: World, v1: World, p: PeerRec, v: World, recs: seq<PeerRec>)
    requires Supplied(w, v1, [p]) && Supplied(v1, v, recs)
    ensures Supplied(w, v, [p] + recs)
  {
    assert w.inflight + [p] + recs == w.inflight + ([p] + recs);
  }

  lemma SuppliedRun(w: World, v1: World, p: PeerRec, v: World, recs: seq<PeerRec>)
    requires Shape(w) && Enabled(w, Peer(p.inst, p.body)) && v1 == Take(w, Peer(p.inst, p.body))
    requires Exec(v1, PeerSteps(recs)) == Some(v)
    ensures Exec(w, PeerSteps([p] + recs)) == Some(v)
  {
    assert PeerSteps([p] + recs) == [Step.Peer(p.inst, p.body)] + PeerSteps(recs);
    ExecFirst(w, Step.Peer(p.inst, p.body), v1, PeerSteps(recs));
  }

  lemma MatchMore(w: World, v1: World, p: PeerRec, f: Fragment, fs: seq<Fragment>, recs: seq<PeerRec>)
    requires Shape(w) && Shape(v1) && Supplied(w, v1, [p]) && Match(w, f, p) && |recs| == |fs|
    requires forall k :: 0 <= k < |recs| ==> Match(v1, fs[k], recs[k])
    ensures forall k :: 0 <= k < |recs| + 1 ==> Match(w, ([f] + fs)[k], ([p] + recs)[k])
  {
    forall k | 0 <= k < |recs| + 1 ensures Match(w, ([f] + fs)[k], ([p] + recs)[k]) {
      if k > 0 {
        assert Match(v1, fs[k - 1], recs[k - 1]);
      }
    }
  }

  lemma RestOfRest(data: bytes, rest: bytes, last: bytes, stream: bytes)
    requires data <= stream && IsRest(data, rest) && IsRest(rest, last)
    ensures IsRest(data, last) && stream[|data| - |rest|..][|rest| - |last|..] == stream[|data| - |last|..]
  {}

  lemma FedOneMore(w: World, v1: World, p: PeerRec, f: Fragment, d: Drained, data: bytes, rest: bytes, stream: bytes,
                   later: bytes, t: Taken, v: World)
    requires Shape(w) && Sends(w, p, f, v1) && data <= stream && IsRest(data, rest)
    requires later == stream[|data| - |rest|..] && rest <= later && Fed(v1, d, rest, later, t, v)
    ensures Fed(w, d.(frags := [f] + d.frags), data, stream, t.(recs := [p] + t.recs), v)
  {
    SentOneMore(w, v1, p, f, d.frags, t.recs, v);
    RestOfRest(data, rest, d.rest, stream);
  }

  lemma SentOneMore(w: World, v1: World, p: PeerRec, f: Fragment, fs: seq<Fragment>, recs: seq<PeerRec>, v: World)
    requires Shape(w) && Sends(w, p, f, v1) && SentAs(v1, fs, recs, v)
    ensures SentAs(w, [f] + fs, [p] + recs, v)
  {
    SuppliedRun(w, v1, p, v, recs);
    SuppliedTwice(w, v1, p, v, recs);
    MatchMore(w, v1, p, f, fs, recs);
  }

  // ---------- the connection in bytes ----------

  /**
   * A connection: the reader's saved header, the read buffer, the bytes on their way, and whether the socket has
   * failed or reached its end. The messages are those whose bytes have not all been consumed.
   */
  datatype Link = Link(saved: Option<Header>, unread: bytes, net: bytes, down: bool, msgs: seq<Message>)

  const NEW_LINK := Link(None, [], [], false, [])

  /**
   * The link belongs to the state w; the reader has made of its buffer what it could. A living connection carries the
   * messages. On a dead one nothing will ever be read again: the read buffer hides the socket, or the socket is down.
   */
  predicate Linked(w: World, l: Link)
  {
    && Shape(w) && Owing(l.saved) && AtRest(l.saved, l.unread)
    && if w.dead then l.unread == [] ==> l.down
       else
         && !l.down && EndWhole(l.saved)
         && w.inflight == [] && Carries(l.saved, l.unread + l.net, l.msgs) && Answering(w, l.saved, l.msgs)
  }

  /** What the socket may say: a socket that is down stays down, and it gives out only bytes that are on their way. */
  predicate Offers(l: Link, ev: SocketEvent)
  {
    match ev
    case NotReady => !l.down
    case Fault => true
    case Arrived(data) => data == [] || (!l.down && data <= l.net)
  }

  /** What a poll of the connection finds: the polling itself, what is read, the event that it is, the link after it. */
  function PollOf(w: World, l: Link, ev: SocketEvent): Polling
    requires Owing(l.saved)
  {
    PollStep(w.slots, l.saved, l.unread, ev)
  }

  function Found(l: Link, ev: SocketEvent): Taken
    requires Owing(l.saved)
  {
    match Offered(l.unread, ev)
    case Arrived(data) => Unpack(l.saved, data, l.msgs)
    case _ => Taken([], l.msgs)
  }

  function EventOf(state: ConState, n: nat): Event
  {
    match state
    case Quiet => Idle
    case Progress => Event.Got(n)
    case _ => Lost
  }

  function EventFound(w: World, l: Link, ev: SocketEvent): Event
    requires Owing(l.saved)
  {
    EventOf(PollOf(w, l, ev).state, |Found(l, ev).recs|)
  }

  /** An empty read buffer lets the socket be read. */
  function LinkAfter(w: World, l: Link, ev: SocketEvent): Link
    requires Owing(l.saved)
  {
    var p := PollOf(w, l, ev);
    Link(p.saved, p.unread,
         if l.unread == [] && ev.Arrived? && |ev.data| <= |l.net| then l.net[|ev.data|..] else l.net,
         l.down || (l.unread == [] && (ev == Fault || ev == Arrived([]))),
         Found(l, ev).left)
  }

  /** The peer writes a record for a request of this connection that it has not ended before. */
  predicate MayAnswer(w: World, l: Link, m: Message)
    requires Shape(w)
  {
    && Answer(m) && m.inst < |w.insts| && w.insts[m.inst].epoch == w.epoch && m.p.rec.id == IdOf(w, m.inst)
    && !w.insts[m.inst].peerEnded
    && forall k :: 0 <= k < |l.msgs| && l.msgs[k].p.rec.rtype == EndRequest ==> l.msgs[k].inst != m.inst
  }

  lemma PeerWrites(w: World, l: Link, m: Message)
    requires Linked(w, l) && !w.dead && MayAnswer(w, l, m)
    ensures Linked(w, l.(net := l.net + EndToEnd.PaddedBytes(m.p), msgs := l.msgs + [m]))
  {
    CarriesMore(l.saved, l.unread + l.net, l.msgs, m);
    Associate(l.unread, l.net, EndToEnd.PaddedBytes(m.p));
    AnsweringMore(w, l, m);
  }

  lemma AnsweringMore(w: World, l: Link, m: Message)
    requires Shape(w) && Answering(w, l.saved, l.msgs) && MayAnswer(w, l, m)
    ensures Answering(w, l.saved, l.msgs + [m])
  {}

  lemma CarriesMore(saved: Option<Header>, stream: bytes, msgs: seq<Message>, m: Message)
    requires Carries(saved, stream, msgs) && Answer(m)
    ensures Carries(saved, stream + EndToEnd.PaddedBytes(m.p), msgs + [m])
  {
    var more := msgs + [m];
    MessageMore(msgs, m);
    if saved.Some? {
      assert more[0] == msgs[0] && more[1..] == msgs[1..] + [m];
      MessageMore(msgs[1..], m);
      Associate(Remainder(saved.value, msgs[0]), MessageBytes(msgs[1..]), EndToEnd.PaddedBytes(m.p));
    }
  }

  lemma {:induction false} MessageMore(msgs: seq<Message>, m: Message)
    requires AllAnswers(msgs) && Answer(m)
    ensures AllAnswers(msgs + [m]) && MessageBytes(msgs + [m]) == MessageBytes(msgs) + EndToEnd.PaddedBytes(m.p)
  {
    var more := msgs + [m];
    if msgs == [] {
      assert more == [m] && more[1..] == [] && MessageBytes(more[1..]) == [];
      assert EndToEnd.PaddedBytes(m.p) + [] == [] + EndToEnd.PaddedBytes(m.p);
    } else {
      assert more[0] == msgs[0] && more[1..] == msgs[1..] + [m];
      MessageMore(msgs[1..], m);
      Associate(EndToEnd.PaddedBytes(msgs[0].p), MessageBytes(msgs[1..]), EndToEnd.PaddedBytes(m.p));
    }
  }

  // ---------- polling the connection ----------

  /** The fragments are the first records in flight, under the IDs of their requests. */
  predicate Matches(w: World, fs: seq<Fragment>)
    requires Shape(w)
  {
    && |fs| <= |w.inflight|
    && forall k :: 0 <= k < |fs| ==>
         && ParseBody(fs[k].content, fs[k].header.rtype) == Some(w.inflight[k].body)
         && fs[k].header.requestId == IdOf(w, w.inflight[k].inst)
  }

  lemma MatchesRest(w: World, fs: seq<Fragment>)
    requires Shape(w) && fs != [] && Matches(w, fs)
    ensures w.inflight != [] && Matches(Deliver(w), fs[1..])
    ensures Deliver(w).slots == Dispatch(w.slots, fs[0].header.requestId, w.inflight[0].body)
  {
    var r := Deliver(w);
    DeliverChanges(w);
    assert r.inflight == w.inflight[1..];
    forall k | 0 <= k < |fs[1..]|
      ensures ParseBody(fs[1..][k].content, fs[1..][k].header.rtype) == Some(r.inflight[k].body)
      ensures fs[1..][k].header.requestId == IdOf(r, r.inflight[k].inst)
    {
      assert fs[1..][k] == fs[k + 1] && r.inflight[k] == w.inflight[k + 1];
    }
  }

  lemma {:induction false} DeliverIsDispatch(w: World, fs: seq<Fragment>)
    requires Shape(w) && Matches(w, fs)
    ensures DispatchAll(w.slots, fs) == Some(DeliverMany(w, |fs|).slots)
    decreases |fs|
  {
    if fs != [] {
      MatchesRest(w, fs);
      DeliverIsDispatch(Deliver(w), fs[1..]);
      DispatchFirst(w, Deliver(w), fs);
    }
  }

  lemma DispatchFirst(w: World, r: World, fs: seq<Fragment>)
    requires Shape(w) && fs != [] && |fs| <= |w.inflight| && r == Deliver(w)
    requires ParseBody(fs[0].content, fs[0].header.rtype) == Some(w.inflight[0].body)
    requires r.slots == Dispatch(w.slots, fs[0].header.requestId, w.inflight[0].body)
    requires DispatchAll(r.slots, fs[1..]) == Some(DeliverMany(r, |fs| - 1).slots)
    ensures DispatchAll(w.slots, fs) == Some(DeliverMany(w, |fs|).slots)
  {}

  /** After steps of the peer, which send recs, and the event e the slab is slots and the link is l. */
  predicate Brought(w: World, recs: seq<PeerRec>, v: World, e: Event, slots: Slab, l: Link)
    requires Shape(w)
  {
    && Exec(w, PeerSteps(recs)) == Some(v) && Shape(v) && Supplied(w, v, recs)
    && Possible(v, e) && Happen(v, e).slots == slots && Linked(Happen(v, e), l)
  }

  /** After steps of the peer, which send what is read, the poll is an event. */
  predicate Simulates(w: World, l: Link, ev: SocketEvent, v: World)
    requires Shape(w) && Owing(l.saved)
  {
    Brought(w, Found(l, ev).recs, v, EventFound(w, l, ev), PollOf(w, l, ev).slots, LinkAfter(w, l, ev))
  }

  lemma {:induction false} ParsesAll(slots: Slab, fs: seq<Fragment>)
    requires DispatchAll(slots, fs).Some?
    ensures AllParse(fs)
    decreases |fs|
  {
    if fs != [] {
      ParsesAll(Dispatch(slots, fs[0].header.requestId, ParseBody(fs[0].content, fs[0].header.rtype).value), fs[1..]);
      assert forall k :: 1 <= k < |fs| ==> fs[k] == fs[1..][k - 1];
    }
  }

  /** The records just read are delivered: nothing is in flight any more. */
  lemma {:induction false} DeliveredAll(w: World, k: nat)
    requires Shape(w) && k <= |w.inflight|
    ensures var h := DeliverMany(w, k);
            && h.inflight == w.inflight[k..] && h.dead == w.dead && h.epoch == w.epoch && |h.insts| == |w.insts|
            && forall i :: 0 <= i < |w.insts| ==> w.insts[i] == h.insts[i].(delivered := w.insts[i].delivered)
    decreases k
  {
    if k > 0 {
      var d := Deliver(w);
      DeliverChanges(w);
      assert d.inflight == w.inflight[1..];
      DeliveredAll(d, k - 1);
    }
  }

  /** Bytes that the reader can use. */
  lemma ReadProgress(w: World, l: Link, data: bytes) returns (v: World, h: World)
    requires Linked(w, l) && !w.dead && data <= l.unread + l.net && !Distribute(w.slots, l.saved, data).panicked
    ensures var recs, d := Unpack(l.saved, data, l.msgs).recs, Distribute(w.slots, l.saved, data);
            && Exec(w, PeerSteps(recs)) == Some(v) && Shape(v) && Supplied(w, v, recs) && |recs| == |v.inflight|
            && h == DeliverMany(v, |recs|) && Shape(h) && h.slots == d.slots
            && ReadTo(h, l, data, d, Unpack(l.saved, data, l.msgs).left)
  {
    DistributeIsDispatch(w.slots, l.saved, data);
    var e, t := Drain(l.saved, data), Unpack(l.saved, data, l.msgs);
    ParsesAll(w.slots, e.frags);
    v := Feed(w, l.saved, data, l.unread + l.net, l.msgs);
    h := FedDelivered(w, e, data, l.unread + l.net, t, v);
  }

  /** What has been fed to the requests is delivered. */
  lemma FedDelivered(w: World, d: Drained, data: bytes, stream: bytes, t: Taken, v: World) returns (h: World)
    requires Shape(w) && !w.dead && w.inflight == [] && data <= stream && Fed(w, d, data, stream, t, v)
    ensures |t.recs| == |v.inflight| && h == DeliverMany(v, |t.recs|) && Shape(h) && h.inflight == [] && !h.dead
    ensures DispatchAll(w.slots, d.frags) == Some(h.slots) && Answering(h, d.saved, t.left)
  {
    AllMatch(w, v, d.frags, t.recs);
    DeliverIsDispatch(v, d.frags);
    DeliveredAll(v, |t.recs|);
    h := DeliverMany(v, |t.recs|);
    StillAnswered(v, h, d.saved, t.left);
  }

  /** Of the bytes to come the data has been read, up to the rest d.rest. */
  predicate ReadTo(h: World, l: Link, data: bytes, d: Distributed, left: seq<Message>)
    requires Shape(h)
  {
    && h.inflight == [] && !h.dead && IsRest(data, d.rest) && |data| <= |l.unread + l.net|
    && Carries(d.saved, (l.unread + l.net)[|data| - |d.rest|..], left) && Answering(h, d.saved, left)
    && EndWhole(d.saved) && AtRest(d.saved, d.rest)
  }

  lemma AllMatch(w: World, v: World, fs: seq<Fragment>, recs: seq<PeerRec>)
    requires Shape(w) && Shape(v) && w.inflight == [] && Supplied(w, v, recs) && |recs| == |fs|
    requires forall k :: 0 <= k < |recs| ==> Match(w, fs[k], recs[k])
    ensures v.inflight == recs && Matches(v, fs)
  {
    assert v.inflight == recs;
    forall k | 0 <= k < |recs|
      ensures ParseBody(fs[k].content, fs[k].header.rtype) == Some(v.inflight[k].body)
      ensures fs[k].header.requestId == IdOf(v, v.inflight[k].inst)
    {
      assert Match(w, fs[k], recs[k]);
    }
  }

  /** The messages to come still answer the same requests. */
  lemma StillAnswered(w: World, h: World, saved: Option<Header>, msgs: seq<Message>)
    requires Shape(w) && Shape(h) && h.epoch == w.epoch && |h.insts| == |w.insts| && Answering(w, saved, msgs)
    requires forall i :: 0 <= i < |w.insts| ==>
               var a, b := w.insts[i], h.insts[i];
               b.rid == a.rid && b.epoch == a.epoch && b.peerEnded == a.peerEnded
    ensures Answering(h, saved, msgs)
  {}

  /** Nothing is read unless there is progress. */
  lemma NothingFound(w: World, l: Link, ev: SocketEvent)
    requires Linked(w, l) && PollOf(w, l, ev).state in {Quiet, Closed, Failed}
    ensures Found(l, ev) == Taken([], l.msgs)
  {
    match Offered(l.unread, ev) {
      case Arrived(data) =>
        if data != [] {
          ClosedVerdict(w.slots, l.saved, data);
        }
      case _ =>
    }
  }

  lemma NothingRead(w: World, l: Link, ev: SocketEvent)
    requires Linked(w, l) && PollOf(w, l, ev).state in {Quiet, Closed, Failed}
    requires var e := EventFound(w, l, ev);
             && Possible(w, e) && Happen(w, e).slots == PollOf(w, l, ev).slots
             && Linked(Happen(w, e), LinkAfter(w, l, ev))
    ensures Simulates(w, l, ev, w)
  {
    NothingFound(w, l, ev);
    NothingFed(w);
  }

  /** On a dead connection every poll reports the loss again. */
  lemma DeadPoll(w: World, l: Link, ev: SocketEvent)
    requires Linked(w, l) && w.dead && Offers(l, ev)
    ensures var p := PollOf(w, l, ev);
            && (p.state == Closed || p.state == Failed) && p.slots == NotifyAll(w.slots)
            && Linked(Lose(w), LinkAfter(w, l, ev))
  {
    if l.unread != [] {
      NothingDispatched(w.slots, l.saved, l.unread);
    }
  }

  /** A poll that finds the connection lost. */
  lemma LosingPoll(w: World, l: Link, ev: SocketEvent)
    requires Linked(w, l) && !w.dead && Offers(l, ev) && PollOf(w, l, ev).state in {Closed, Failed}
    ensures PollOf(w, l, ev).slots == NotifyAll(w.slots) && Linked(Lose(w), LinkAfter(w, l, ev))
  {
    match Offered(l.unread, ev) {
      case Arrived(data) => if data != [] { ClosedVerdict(w.slots, l.saved, data); }
      case _ =>
    }
  }

  lemma QuietPoll(w: World, l: Link, ev: SocketEvent)
    requires Linked(w, l) && !w.dead && PollOf(w, l, ev).state == Quiet
    ensures PollOf(w, l, ev).slots == w.slots && LinkAfter(w, l, ev) == l
  {
    NothingFound(w, l, ev);
  }

  /** The bytes offered are the first of those to come, and the rest follows what stays in the read buffer. */
  lemma OfferedFirst(w: World, l: Link, ev: SocketEvent, data: bytes, rest: bytes)
    requires Offers(l, ev) && Offered(l.unread, ev) == Arrived(data) && data != [] && IsRest(data, rest)
    requires Owing(l.saved)
    ensures data <= l.unread + l.net && rest + LinkAfter(w, l, ev).net == (l.unread + l.net)[|data| - |rest|..]
  {
    assert l.unread + l.net == data + LinkAfter(w, l, ev).net;
  }

  /** A poll that reads on. */
  lemma ReadingPoll(w: World, l: Link, ev: SocketEvent) returns (v: World)
    requires Linked(w, l) && !w.dead && Offers(l, ev) && PollOf(w, l, ev).state == Progress
    ensures Simulates(w, l, ev, v)
  {
    var data := ProgressMade(w, l, ev);
    OfferedFirst(w, l, ev, data, []);
    var h;
    v, h := ReadProgress(w, l, data);
    var recs := FoundInData(w, l, ev, data);
    LinkReadOn(w, h, l, ev, data);
    ReadBrings(w, recs, v, PollOf(w, l, ev).slots, LinkAfter(w, l, ev));
  }

  lemma FoundInData(w: World, l: Link, ev: SocketEvent, data: bytes) returns (recs: seq<PeerRec>)
    requires Owing(l.saved) && PollOf(w, l, ev).state == Progress && Offered(l.unread, ev) == Arrived(data)
    ensures recs == Unpack(l.saved, data, l.msgs).recs == Found(l, ev).recs
    ensures EventFound(w, l, ev) == Event.Got(|recs|)
  {
    recs := Found(l, ev).recs;
  }

  lemma ReadBrings(w: World, recs: seq<PeerRec>, v: World, slots: Slab, l: Link)
    requires Shape(w) && !w.dead && Exec(w, PeerSteps(recs)) == Some(v) && Shape(v) && Supplied(w, v, recs)
    requires |recs| == |v.inflight| && DeliverMany(v, |recs|).slots == slots && Linked(DeliverMany(v, |recs|), l)
    ensures Brought(w, recs, v, Event.Got(|recs|), slots, l)
  {}

  lemma LinkReadOn(w: World, h: World, l: Link, ev: SocketEvent, data: bytes)
    requires Linked(w, l) && !w.dead && Shape(h) && Offers(l, ev)
    requires Offered(l.unread, ev) == Arrived(data) && data != []
    requires var d := Distribute(w.slots, l.saved, data);
             && ReadTo(h, l, data, d, Unpack(l.saved, data, l.msgs).left)
             && PollOf(w, l, ev) == Polling(d.slots, d.saved, d.rest, Progress)
    ensures Linked(h, LinkAfter(w, l, ev))
  {
    var d, net, left := Distribute(w.slots, l.saved, data), LinkAfter(w, l, ev).net, Unpack(l.saved, data, l.msgs).left;
    OfferedFirst(w, l, ev, data, d.rest);
    ReadOn(h, l, data, d, left, net);
    LinkIs(w, l, ev, data);
  }

  lemma LinkIs(w: World, l: Link, ev: SocketEvent, data: bytes)
    requires Owing(l.saved) && !l.down && Offered(l.unread, ev) == Arrived(data) && data != []
    ensures var p, t := PollOf(w, l, ev), Unpack(l.saved, data, l.msgs);
            LinkAfter(w, l, ev) == Link(p.saved, p.unread, LinkAfter(w, l, ev).net, false, t.left)
  {}

  lemma ReadOn(h: World, l: Link, data: bytes, d: Distributed, left: seq<Message>, net: bytes)
    requires Shape(h) && ReadTo(h, l, data, d, left) && d.rest + net == (l.unread + l.net)[|data| - |d.rest|..]
    ensures Linked(h, Link(d.saved, d.rest, net, false, left))
  {}

  lemma ProgressMade(w: World, l: Link, ev: SocketEvent) returns (data: bytes)
    requires Owing(l.saved) && PollOf(w, l, ev).state == Progress
    ensures var d := Distribute(w.slots, l.saved, data);
            && Offered(l.unread, ev) == Arrived(data) && data != [] && !d.panicked
            && PollOf(w, l, ev) == Polling(d.slots, d.saved, d.rest, Progress)
  {
    data := Offered(l.unread, ev).data;
  }

  /** Whatever a poll of the connection finds in the bytes, it is an event of the transition system. */
  lemma PollSimulated(w: World, l: Link, ev: SocketEvent) returns (v: World)
    requires Linked(w, l) && Offers(l, ev) && PollOf(w, l, ev).state != Crashed
    ensures Simulates(w, l, ev, v)
  {
    v := w;
    if w.dead {
      DeadPoll(w, l, ev);
      NothingRead(w, l, ev);
    } else if PollOf(w, l, ev).state == Progress {
      v := ReadingPoll(w, l, ev);
    } else if PollOf(w, l, ev).state == Quiet {
      QuietPoll(w, l, ev);
      NothingRead(w, l, ev);
    } else {
      LosingPoll(w, l, ev);
      NothingRead(w, l, ev);
    }
  }

  // ---------- reading everything ----------

  function BodyOf(m: Message): Body
    requires Answer(m)
  {
    ParseBody(m.p.rec.payload, m.p.rec.rtype).value
  }

  function RecordsOf(msgs: seq<Message>): (r: seq<PeerRec>)
    requires AllAnswers(msgs)
    ensures |r| == |msgs|
  {
    seq(|msgs|, k requires 0 <= k < |msgs| => PeerRec(msgs[k].inst, BodyOf(msgs[k])))
  }

  /** The reader has read all that was to come and rests idle. */
  predicate ReadOut(saved: Option<Header>, stream: bytes)
    requires Owing(saved)
  {
    var d := Drain(saved, stream);
    !d.malformed && AllParse(d.frags) && d.saved == None && d.rest == []
  }

  lemma ReadOneMore(saved: Option<Header>, stream: bytes, f: Fragment, rest: bytes)
    requires Owing(saved) && NextFragment(saved, stream) == Delivered(f, None, rest)
    requires ParseBody(f.content, f.header.rtype).Some? && ReadOut(None, rest)
    ensures ReadOut(saved, stream)
  {
    var d := DrainNext(saved, stream, f, None, rest);
    assert forall k :: 1 <= k <= |d.frags| ==> ([f] + d.frags)[k] == d.frags[k - 1];
  }

  /** Where the rest of a message is there, it is delivered in one piece. */
  lemma RestComes(h: Header, m: Message, tail: bytes) returns (f: Fragment)
    requires Answer(m) && PartOf(h, m)
    ensures TakeFragment(h, Remainder(h, m) + tail) == Delivered(f, None, tail) && f.header == h
    ensures f.content == m.p.rec.payload[|m.p.rec.payload| - h.contentLength..]
  {
    var n, payload := h.contentLength as int, m.p.rec.payload;
    DropFrom(payload[|payload| - n..], m.p.pad, tail, 0);
    f := Fragment(h, (Remainder(h, m) + tail)[..n]);
  }

  lemma WholeComes(m: Message, tail: bytes) returns (f: Fragment)
    requires Answer(m)
    ensures NextFragment(None, EndToEnd.PaddedBytes(m.p) + tail) == Delivered(f, None, tail)
    ensures ParseBody(f.content, f.header.rtype) == Some(BodyOf(m))
  {
    var h := EndToEnd.PaddedHeader(m.p);
    var stream := EndToEnd.PaddedBytes(m.p) + tail;
    HeaderOf(m, tail);
    f := RestComes(h, m, tail);
    assert f.content == m.p.rec.payload;
  }

  lemma {:induction false} ReadsMessages(msgs: seq<Message>)
    requires AllAnswers(msgs)
    ensures ReadOut(None, MessageBytes(msgs))
    ensures Unpack(None, MessageBytes(msgs), msgs) == Taken(RecordsOf(msgs), [])
    decreases |msgs|
  {
    if msgs != [] {
      var stream, rest := MessageBytes(msgs), MessageBytes(msgs[1..]);
      var f := WholeComes(msgs[0], rest);
      ReadsMessages(msgs[1..]);
      ReadOneMore(None, stream, f, rest);
      var t := UnpackNext(None, stream, msgs, f, None, rest);
      RecordsFirst(msgs);
    }
  }

  lemma RecordsFirst(msgs: seq<Message>)
    requires AllAnswers(msgs) && msgs != []
    ensures RecordsOf(msgs) == [PeerRec(msgs[0].inst, BodyOf(msgs[0]))] + RecordsOf(msgs[1..])
  {}

  /** The records brought by the messages, the first of which may have come in part before. */
  predicate Brings(recs: seq<PeerRec>, msgs: seq<Message>)
  {
    && |recs| == |msgs|
    && forall k :: 0 <= k < |msgs| ==>
         recs[k].inst == msgs[k].inst && (msgs[k].p.rec.rtype == EndRequest ==> recs[k].body.EndRequestBody?)
  }

  /** Unless it has taken an end record without its padding, a reader can read everything that is to come. */
  lemma ReadsEverything(saved: Option<Header>, stream: bytes, msgs: seq<Message>)
    requires Carries(saved, stream, msgs) && EndWhole(saved) && !EndTaken(saved)
    ensures ReadOut(saved, stream)
    ensures var t := Unpack(saved, stream, msgs); Brings(t.recs, msgs) && t.left == []
  {
    if saved.None? {
      ReadsMessages(msgs);
    } else {
      ReadsRest(saved.value, stream, msgs);
    }
  }

  lemma ReadsRest(h: Header, stream: bytes, msgs: seq<Message>)
    requires AllAnswers(msgs) && Owing(Some(h)) && Inside(h, stream, msgs) && EndWhole(Some(h)) && !EndTaken(Some(h))
    ensures ReadOut(Some(h), stream)
    ensures var t := Unpack(Some(h), stream, msgs); Brings(t.recs, msgs) && t.left == []
  {
    var f, body := LastPiece(h, stream, msgs);
    var rest := MessageBytes(msgs[1..]);
    ReadsMessages(msgs[1..]);
    ReadOneMore(Some(h), stream, f, rest);
    var t := UnpackNext(Some(h), stream, msgs, f, None, rest);
    BringsMore(PeerRec(msgs[0].inst, body), msgs);
  }

  lemma LastPiece(h: Header, stream: bytes, msgs: seq<Message>) returns (f: Fragment, body: Body)
    requires AllAnswers(msgs) && Inside(h, stream, msgs) && EndWhole(Some(h)) && !EndTaken(Some(h))
    ensures NextFragment(Some(h), stream) == Delivered(f, None, MessageBytes(msgs[1..]))
    ensures ParseBody(f.content, f.header.rtype) == Some(body)
    ensures msgs[0].p.rec.rtype == EndRequest ==> body.EndRequestBody?
  {
    f := RestComes(h, msgs[0], MessageBytes(msgs[1..]));
    assert h.rtype == EndRequest ==> f.content == msgs[0].p.rec.payload;
    body := ParseBody(f.content, f.header.rtype).value;
  }

  lemma BringsMore(p: PeerRec, msgs: seq<Message>)
    requires AllAnswers(msgs) && msgs != [] && p.inst == msgs[0].inst
    requires msgs[0].p.rec.rtype == EndRequest ==> p.body.EndRequestBody?
    ensures Brings([p] + RecordsOf(msgs[1..]), msgs)
  {}

  lemma {:induction false} DispatchesAll(slots: Slab, fs: seq<Fragment>)
    requires AllParse(fs)
    ensures DispatchAll(slots, fs).Some?
    decreases |fs|
  {
    if fs != [] {
      assert forall k :: 1 <= k < |fs| ==> fs[1..][k - 1] == fs[k];
      var body := ParseBody(fs[0].content, fs[0].header.rtype).value;
      DispatchesAll(Dispatch(slots, fs[0].header.requestId, body), fs[1..]);
    }
  }

  /** A living connection that can be read: nothing hides the socket, and no padding of an end record is owed. */
  predicate Readable(w: World, l: Link)
  {
    !w.dead && l.unread == [] && !EndTaken(l.saved)
  }

  /** Reading everything that is on its way brings all messages, and leaves the link of a new connection. */
  lemma ReadWholeNet(w: World, l: Link)
    requires Linked(w, l) && Readable(w, l) && l.net != []
    ensures Offers(l, Arrived(l.net)) && PollOf(w, l, Arrived(l.net)).state == Progress
    ensures Brings(Found(l, Arrived(l.net)).recs, l.msgs) && LinkAfter(w, l, Arrived(l.net)) == NEW_LINK
  {
    assert [] + l.net == l.net;
    ReadsEverything(l.saved, l.net, l.msgs);
    DistributesAll(w.slots, l.saved, l.net);
  }

  lemma DistributesAll(slots: Slab, saved: Option<Header>, stream: bytes)
    requires Owing(saved) && ReadOut(saved, stream)
    ensures var d := Distribute(slots, saved, stream); !d.panicked && d.saved == None && d.rest == []
  {
    DistributeIsDispatch(slots, saved, stream);
    DispatchesAll(slots, Drain(saved, stream).frags);
  }

  /** Nothing that the reader depends on has changed. */
  lemma LinkKept(w: World, r: World, l: Link)
    requires Linked(w, l) && Shape(r) && r.dead == w.dead && r.epoch == w.epoch && r.inflight == w.inflight
    requires |w.insts| <= |r.insts|
    requires forall i :: 0 <= i < |w.insts| ==>
               var a, b := w.insts[i], r.insts[i];
               b.rid == a.rid && b.epoch == a.epoch && b.peerEnded == a.peerEnded
    ensures Linked(r, l)
  {}

  // ---------- writing, in bytes ----------

  /** A proper prefix of the bytes of some records is whole records and a part of the next one. */
  lemma {:induction false} TornAt(recs: seq<Rec>, t: bytes) returns (n: nat, part: bytes)
    requires Sized(recs) && t < WireBytes(recs)
    ensures n < |recs| && Sized(recs[..n]) && part < RecBytes(recs[n]) && t == WireBytes(recs[..n]) + part
  {
    var first := RecBytes(recs[0]);
    if |t| < |first| {
      n, part := 0, t;
      assert [] + t == t;
    } else {
      assert t[..|first|] == first;
      var m;
      m, part := TornAt(recs[1..], t[|first|..]);
      n := m + 1;
      assert recs[..n] == [recs[0]] + recs[1..][..m];
      assert t == first + t[|first|..];
      Associate(first, WireBytes(recs[1..][..m]), part);
    }
  }

  /** The bytes that a write has left on the wire are those of a Written or a Torn outcome. */
  lemma WriteSimulated(w: World, i: nat, recs: seq<Rec>, after: bytes, ok: bool) returns (o: Outcome)
    requires Shape(w) && TornOk(w) && Sized(RecsOf(w.wire)) && Sized(recs) && recs != []
    requires Wrote(PeerBytes(w), after, WireBytes(recs), ok)
    requires w.jammed ==> !ok && after == PeerBytes(w)
    ensures Writable(w, recs, o) && (o.Written? <==> ok)
    ensures var r := Write(w, i, recs, o); Sized(RecsOf(r.wire)) && PeerBytes(r) == after
  {
    if w.jammed {
      o := Torn(0, []);
      assert recs[..0] == [];
      NothingWritten(w, i);
    } else if ok {
      o := Written;
      RecsWritten(w, i, recs, []);
    } else {
      o := WriteTornAt(w, i, recs, after);
    }
  }

  lemma WriteTornAt(w: World, i: nat, recs: seq<Rec>, after: bytes) returns (o: Outcome)
    requires Shape(w) && w.torn == [] && !w.jammed && Sized(RecsOf(w.wire)) && Sized(recs)
    requires Wrote(PeerBytes(w), after, WireBytes(recs), false)
    ensures o.Torn? && Writable(w, recs, o)
    ensures var r := Write(w, i, recs, o); Sized(RecsOf(r.wire)) && PeerBytes(r) == after
  {
    var t := LeftOnWire(PeerBytes(w), after, WireBytes(recs));
    var n, part := TornAt(recs, t);
    o := Torn(n, part);
    RecsWritten(w, i, recs[..n], part);
  }

  lemma LeftOnWire(before: bytes, after: bytes, all: bytes) returns (t: bytes)
    requires Wrote(before, after, all, false)
    ensures t < all && after == before + t
  {
    t := after[|before|..];
    assert after == before + t;
  }

  lemma NothingWritten(w: World, i: nat)
    ensures RecsOf(w.wire + Tagged(i, [])) == RecsOf(w.wire)
  {}

  lemma RecsWritten(w: World, i: nat, recs: seq<Rec>, part: bytes)
    requires Sized(RecsOf(w.wire)) && Sized(recs) && w.torn == []
    ensures Sized(RecsOf(w.wire + Tagged(i, recs)))
    ensures WireBytes(RecsOf(w.wire + Tagged(i, recs))) + part == PeerBytes(w) + (WireBytes(recs) + part)
  {
    var before := WireBytes(RecsOf(w.wire));
    RecsOfAppend(w.wire, i, recs);
    WireAppend(RecsOf(w.wire), recs);
    assert before + [] == before;
    Associate(before, WireBytes(recs), part);
  }

  lemma PeerBytesSame(w: World, r: World)
    requires Sized(RecsOf(w.wire)) && r.wire == w.wire && r.torn == w.torn
    ensures Sized(RecsOf(r.wire)) && PeerBytes(r) == PeerBytes(w)
  {}

  lemma NewLink(w: World)
    requires Shape(w)
    ensures Linked(Reconnect(w), NEW_LINK) && RecsOf(Reconnect(w).wire) == [] && PeerBytes(Reconnect(w)) == []
  {}
}
