/** Any interleaving of senders: what the peer sees on the wire of one connection, request by request. */
module Senders {
  import opened Octets
  import opened Records
  import opened Framing
  import opened Codec
  import opened Connection
  import opened Requests
  import opened Client
  import opened Ownership

  // ---------- what a request writes ----------

  function InputRecs(id: u16, chunks: seq<bytes>): seq<Rec>
  {
    if chunks == [] then []
    else InputRecs(id, chunks[..|chunks| - 1]) + FlushRecs(StdIn, id, chunks[|chunks| - 1])
  }

  /** A request's records up to some of its input. */
  function Lead(id: u16, params: bytes, chunks: seq<bytes>): seq<Rec>
  {
    if chunks == [] then [BeginRec(id, RESPONDER, KEEP_CONN)] + StreamRecs(Params, id, params)
    else Lead(id, params, chunks[..|chunks| - 1]) + FlushRecs(StdIn, id, chunks[|chunks| - 1])
  }

  lemma {:induction false} LeadParts(id: u16, params: bytes, chunks: seq<bytes>)
    ensures Lead(id, params, chunks)
         == [BeginRec(id, RESPONDER, KEEP_CONN)] + StreamRecs(Params, id, params) + InputRecs(id, chunks)
    decreases |chunks|
  {
    var h := [BeginRec(id, RESPONDER, KEEP_CONN)] + StreamRecs(Params, id, params);
    if chunks == [] {
      assert h + [] == h;
    } else {
      var n := |chunks| - 1;
      LeadParts(id, params, chunks[..n]);
      Associate(h, InputRecs(id, chunks[..n]), FlushRecs(StdIn, id, chunks[n]));
    }
  }

  /** How the sending of the request body stopped, if it did. */
  function Tail(id: u16, sending: Sending, partial: seq<Rec>): seq<Rec>
  {
    match sending
    case Open => []
    case Ended => [Rec(StdIn, id, [])]
    case Aborted => [AbortRec(id)]
    case Broken => partial
  }

  /** Every whole record that instance inst has written so far. */
  function Script(inst: Inst): seq<Rec>
    requires inst.rid + 1 < 0x1_0000
  {
    var id: u16 := inst.rid + 1;
    match inst.phase
    case Unopened => inst.partial
    case Rejected => [BeginRec(id, RESPONDER, KEEP_CONN)] + FullRecs(Params, id, inst.params) + [AbortRec(id)]
    case _ => Lead(id, inst.params, inst.input) + Tail(id, inst.sending, inst.partial)
  }

  lemma ScriptStarts(inst: Inst)
    requires inst.rid + 1 < 0x1_0000 && (inst.phase != Unopened || inst.partial != [])
    ensures Script(inst) != []
  {
    LeadParts(inst.rid + 1, inst.params, inst.input);
  }

  // ---------- what the peer can tell ----------

  function RecsOf(wire: seq<SentRec>): (r: seq<Rec>)
    ensures |r| == |wire|
  {
    seq(|wire|, k requires 0 <= k < |wire| => wire[k].rec)
  }

  /** The position of the last begin record with this ID. */
  function LastBegin(recs: seq<Rec>, id: u16): (r: Option<nat>)
    ensures r.Some? ==> r.value < |recs| && recs[r.value].rtype == BeginRequest && recs[r.value].id == id
  {
    if recs == [] then None
    else
      var n := |recs| - 1;
      if recs[n].rtype == BeginRequest && recs[n].id == id then Some(n) else LastBegin(recs[..n], id)
  }

  /** The records of the request begun at position b: those with its ID until the ID is begun again. */
  function PeerView(recs: seq<Rec>, b: nat, id: u16): seq<Rec>
  {
    if recs == [] then []
    else
      var n := |recs| - 1;
      PeerView(recs[..n], b, id)
      + if recs[n].id == id && LastBegin(recs, id) == Some(b) then [recs[n]] else []
  }

  function Project(wire: seq<SentRec>, i: nat): seq<Rec>
  {
    if wire == [] then []
    else
      var n := |wire| - 1;
      Project(wire[..n], i) + if wire[n].inst == i then [wire[n].rec] else []
  }

  lemma {:induction false} ProjectTagged(wire: seq<SentRec>, j: nat, recs: seq<Rec>, i: nat)
    ensures Project(wire + Tagged(j, recs), i) == Project(wire, i) + if i == j then recs else []
  {
    var n := |recs| - 1;
    var all := wire + Tagged(j, recs);
    if recs == [] {
      assert all == wire;
    } else {
      assert all[..|all| - 1] == wire + Tagged(j, recs[..n]);
      ProjectTagged(wire, j, recs[..n], i);
      assert recs == recs[..n] + [recs[n]];
    }
  }

  lemma {:induction false} LastBeginKept(recs: seq<Rec>, more: seq<Rec>, id: u16)
    requires forall k :: 0 <= k < |more| ==> more[k].rtype != BeginRequest || more[k].id != id
    ensures LastBegin(recs + more, id) == LastBegin(recs, id)
  {
    if more == [] {
      assert recs + more == recs;
    } else {
      var n := |more| - 1;
      assert (recs + more)[..|recs| + n] == recs + more[..n];
      LastBeginKept(recs, more[..n], id);
    }
  }

  // ---------- the invariant ----------

  /** The position where the peer has seen i begin, if that was on this connection. */
  function Begun(epoch: nat, inst: Inst): Option<nat>
  {
    if inst.epoch == epoch then Some(inst.start) else None
  }

  /** A record as the sender of a request body writes it. */
  predicate OfBody(r: Rec)
  {
    r.rtype == StdIn || r == AbortRec(r.id)
  }

  /** A record on the wire is attributed to its request; one of an earlier connection is of that request's body. */
  predicate RecOk(w: World, k: nat)
    requires Shape(w) && k < |w.wire|
  {
    var i, r := w.wire[k].inst, w.wire[k].rec;
    && i < |w.insts| && r.id == IdOf(w, i) && |r.payload| <= MAX_LENGTH
    && (w.insts[i].epoch == w.epoch || OfBody(r))
    && LastBegin(RecsOf(w.wire[..k + 1]), r.id) == Begun(w.epoch, w.insts[i])
  }

  /** A body counts as ended only when nothing is missing, and is aborted only when something is. */
  predicate InputOk(inst: Inst)
  {
    var missing := Missing(inst.announced, |Flatten(inst.input)|);
    && NoEmpty(inst.input)
    && (inst.phase != Rejected && inst.sending == Ended ==> missing == 0)
    && (inst.phase != Rejected && inst.sending == Aborted ==> missing > 0)
  }

  predicate Pieces(id: u16, recs: seq<Rec>)
  {
    forall k :: 0 <= k < |recs| ==> InputPiece(id, recs[k])
  }

  /** The records do not make up a whole opening. */
  ghost predicate Unfinished(id: u16, params: bytes, recs: seq<Rec>)
  {
    exists hasBody, rejected :: recs < OpeningRecs(id, params, hasBody, rejected)
  }

  /** What a failed write has left on the wire: a part of the opening, or some pieces of input. */
  ghost predicate PartialOk(inst: Inst)
    requires inst.rid + 1 < 0x1_0000
  {
    var id: u16 := inst.rid + 1;
    && (inst.sending != Broken ==> inst.partial == [])
    && (inst.phase == Unopened ==> inst.sending == Broken && Unfinished(id, inst.params, inst.partial))
    && (inst.phase != Unopened ==> Pieces(id, inst.partial))
  }

  /** What the request has been sent of its body, and what a failed write of its own has left. */
  ghost predicate OwnOk(inst: Inst)
  {
    inst.rid + 1 < 0x1_0000 && InputOk(inst) && PartialOk(inst)
  }

  /** The records of instance i on the wire are its script, and it can add to them as long as it sends. */
  predicate Attributed(wire: seq<SentRec>, epoch: nat, inst: Inst, i: nat)
    requires inst.rid + 1 < 0x1_0000
  {
    WroteScript(wire, epoch, inst, i, Script(inst))
  }

  predicate WroteScript(wire: seq<SentRec>, epoch: nat, inst: Inst, i: nat, script: seq<Rec>)
    requires inst.rid + 1 < 0x1_0000
  {
    && (inst.sending == Open ==> LastBegin(RecsOf(wire), inst.rid + 1) == Begun(epoch, inst))
    && (inst.epoch == epoch ==>
          && Project(wire, i) == script && (script != [] ==> inst.start < |wire| && wire[inst.start].inst == i))
  }

  predicate SenderOk(w: World, i: nat)
    requires Shape(w) && i < |w.insts|
  {
    Attributed(w.wire, w.epoch, w.insts[i], i)
  }

  /** Behind the whole records there is at most a part of one, and only after a failed write. */
  predicate TornOk(w: World)
  {
    Deframe(w.torn) == [] && (!w.jammed ==> w.torn == [])
  }

  ghost predicate Wire(w: World)
  {
    && Core(w)
    && (forall k :: 0 <= k < |w.wire| ==> RecOk(w, k))
    && (forall i :: 0 <= i < |w.insts| ==> SenderOk(w, i) && OwnOk(w.insts[i]))
    && TornOk(w)
  }

  /** Records behind the wire leave what was on it as it was. */
  lemma RecKept(w: World, r: World, k: nat)
    requires Shape(w) && Shape(r) && k < |w.wire| && RecOk(w, k)
    requires w.wire <= r.wire && r.epoch == w.epoch && |w.insts| <= |r.insts|
    requires var i := w.wire[k].inst; i < |w.insts| ==>
             var a, b := w.insts[i], r.insts[i]; b.rid == a.rid && b.epoch == a.epoch && b.start == a.start
    ensures RecOk(r, k)
  {
    assert r.wire[..k + 1] == w.wire[..k + 1];
  }

  /** As a sender the instance has not changed, or it has been given up. */
  predicate SameSender(a: Inst, b: Inst)
  {
    && a.rid == b.rid && a.epoch == b.epoch && a.start == b.start && a.params == b.params
    && a.announced == b.announced && a.input == b.input && a.partial == b.partial
    && (a.sending == b.sending || (a.sending == Open && b.sending == Broken && Sender(a) && a.partial == []))
    && (a.phase == Rejected <==> b.phase == Rejected) && (a.phase == Unopened <==> b.phase == Unopened)
  }

  lemma SameOwn(a: Inst, b: Inst)
    requires SameSender(a, b) && OwnOk(a)
    ensures OwnOk(b)
  {}

  lemma SameAttribution(wire: seq<SentRec>, epoch: nat, a: Inst, b: Inst, i: nat)
    requires SameSender(a, b) && a.rid + 1 < 0x1_0000 && Attributed(wire, epoch, a, i)
    ensures Attributed(wire, epoch, b, i)
  {}

  /** Nothing is written, and nobody's sending changes; slots may be given up. */
  lemma WireKept(w: World, r: World)
    requires Wire(w) && Core(r) && r.wire == w.wire && r.epoch == w.epoch && |r.insts| == |w.insts|
    requires r.jammed == w.jammed && r.torn == w.torn
    requires forall i :: 0 <= i < |w.insts| ==> SameSender(w.insts[i], r.insts[i])
    ensures Wire(r)
  {
    forall k | 0 <= k < |r.wire| ensures RecOk(r, k) {
      assert RecOk(w, k);
      RecKept(w, r, k);
    }
    forall i | 0 <= i < |r.insts| ensures SenderOk(r, i) && OwnOk(r.insts[i]) {
      assert SenderOk(w, i) && OwnOk(w.insts[i]);
      SameOwn(w.insts[i], r.insts[i]);
      SameAttribution(w.wire, w.epoch, w.insts[i], r.insts[i], i);
    }
  }

  predicate NoBegin(recs: seq<Rec>, id: u16)
  {
    Sized(recs) && forall k :: 0 <= k < |recs| ==> recs[k].rtype != BeginRequest && recs[k].id == id
  }

  predicate AllOfBody(recs: seq<Rec>)
  {
    forall k :: 0 <= k < |recs| ==> OfBody(recs[k])
  }

  lemma RecsOfAppend(wire: seq<SentRec>, i: nat, recs: seq<Rec>)
    ensures RecsOf(wire + Tagged(i, recs)) == RecsOf(wire) + recs
  {}

  /** More records of a request that is still sending. */
  lemma NewRecs(w: World, r: World, i: nat, recs: seq<Rec>, k: nat)
    requires Wire(w) && Shape(r) && i < |w.insts| && w.insts[i].sending == Open && NoBegin(recs, IdOf(w, i))
    requires AllOfBody(recs)
    requires r.wire == w.wire + Tagged(i, recs) && r.epoch == w.epoch && |r.insts| == |w.insts|
    requires var a, b := w.insts[i], r.insts[i]; b.rid == a.rid && b.epoch == a.epoch && b.start == a.start
    requires |w.wire| <= k < |r.wire|
    ensures RecOk(r, k)
  {
    var m := k + 1 - |w.wire|;
    assert SenderOk(w, i);
    assert r.wire[..k + 1] == w.wire + Tagged(i, recs[..m]);
    RecsOfAppend(w.wire, i, recs[..m]);
    LastBeginKept(RecsOf(w.wire), recs[..m], IdOf(w, i));
  }

  /** Instance i has written recs, whole or in part, and its script is longer by what has landed. */
  lemma WireAppended(w: World, r: World, i: nat, recs: seq<Rec>, o: Outcome)
    requires Wire(w) && Core(r) && i < |w.insts| && w.insts[i].sending == Open && NoBegin(recs, IdOf(w, i))
    requires AllOfBody(recs) && Writable(w, recs, o)
    requires |r.insts| == |w.insts| && r == Write(w, i, recs, o).(insts := w.insts[i := r.insts[i]])
    requires r.insts[i] == w.insts[i].(input := r.insts[i].input, sending := r.insts[i].sending,
                                       partial := r.insts[i].partial)
    requires Script(r.insts[i]) == Script(w.insts[i]) + Landed(recs, o)
    requires OwnOk(r.insts[i])
    ensures Wire(r)
  {
    var more := Landed(recs, o);
    forall k | 0 <= k < |r.wire| ensures RecOk(r, k) {
      if k < |w.wire| {
        assert RecOk(w, k);
        RecKept(w, r, k);
      } else {
        NewRecs(w, r, i, more, k);
      }
    }
    assert InstOk(w, i);
    ScriptStarts(w.insts[i]);
    forall j | 0 <= j < |r.insts| ensures SenderOk(r, j) && OwnOk(r.insts[j]) {
      assert SenderOk(w, j) && OwnOk(w.insts[j]);
      if j == i {
        WriterMore(w.wire, w.epoch, w.insts[i], r.insts[i], i, more);
      } else {
        OtherMore(w.wire, w.epoch, w.insts[j], j, i, more, IdOf(w, i));
      }
    }
    WriteTorn(w, i, recs, o);
  }

  lemma WriterMore(wire: seq<SentRec>, epoch: nat, a: Inst, b: Inst, i: nat, recs: seq<Rec>)
    requires a.rid + 1 < 0x1_0000 && NoBegin(recs, a.rid + 1) && a.sending == Open
    requires b == a.(input := b.input, sending := b.sending, partial := b.partial)
    requires Attributed(wire, epoch, a, i) && Script(a) != [] && Script(b) == Script(a) + recs
    ensures Attributed(wire + Tagged(i, recs), epoch, b, i)
  {
    ScriptMore(wire, epoch, a, b, i, recs, Script(a));
  }

  lemma ScriptMore(wire: seq<SentRec>, epoch: nat, a: Inst, b: Inst, i: nat, recs: seq<Rec>, script: seq<Rec>)
    requires a.rid + 1 < 0x1_0000 && NoBegin(recs, a.rid + 1) && a.sending == Open
    requires b == a.(input := b.input, sending := b.sending, partial := b.partial)
    requires WroteScript(wire, epoch, a, i, script) && script != []
    ensures WroteScript(wire + Tagged(i, recs), epoch, b, i, script + recs)
  {
    MoreOnWire(wire, i, recs, a.rid + 1, i, a.rid + 1);
  }

  lemma OtherMore(wire: seq<SentRec>, epoch: nat, inst: Inst, j: nat, i: nat, recs: seq<Rec>, id: u16)
    requires inst.rid + 1 < 0x1_0000 && NoBegin(recs, id) && j != i && Attributed(wire, epoch, inst, j)
    ensures Attributed(wire + Tagged(i, recs), epoch, inst, j)
  {
    MoreOnWire(wire, i, recs, id, j, inst.rid + 1);
  }

  /** Records that are not begin records change no last begin, and only the writer's own records. */
  lemma MoreOnWire(wire: seq<SentRec>, i: nat, recs: seq<Rec>, id: u16, j: nat, other: u16)
    requires NoBegin(recs, id)
    ensures LastBegin(RecsOf(wire + Tagged(i, recs)), other) == LastBegin(RecsOf(wire), other)
    ensures Project(wire + Tagged(i, recs), j) == if j == i then Project(wire, j) + recs else Project(wire, j)
  {
    RecsOfAppend(wire, i, recs);
    LastBeginKept(RecsOf(wire), recs, other);
    ProjectTagged(wire, i, recs, j);
    assert Project(wire, j) + [] == Project(wire, j);
  }

  lemma WriteTorn(w: World, i: nat, recs: seq<Rec>, o: Outcome)
    requires Shape(w) && TornOk(w) && Sized(recs) && Writable(w, recs, o)
    ensures TornOk(Write(w, i, recs, o))
  {
    if o.Torn? && !w.jammed {
      DeframeTorn(recs[o.whole], o.part);
    }
  }

  lemma {:induction false} NoBeginFull(t: RecordType, id: u16, s: bytes)
    requires t != BeginRequest
    ensures NoBegin(FullRecs(t, id, s), id)
    decreases |s|
  {
    if |s| > BODY_LEN {
      NoBeginFull(t, id, s[BODY_LEN..]);
    }
  }

  /** A body is in hand and its sender is still running. */
  predicate Sender(inst: Inst)
  {
    inst.rid + 1 < 0x1_0000 && inst.phase != Rejected && inst.phase != Unopened && inst.sending == Open
  }

  lemma ScriptGrows(inst: Inst, data: bytes)
    requires Sender(inst)
    ensures Script(inst.(input := inst.input + [data])) == Script(inst) + FlushRecs(StdIn, inst.rid + 1, data)
  {
    var more := inst.input + [data];
    assert more[..|more| - 1] == inst.input;
    var a, b := Lead(inst.rid + 1, inst.params, inst.input), FlushRecs(StdIn, inst.rid + 1, data);
    assert a + [] == a && (a + b) + [] == a + b;
  }

  lemma ScriptEnds(inst: Inst, sending: Sending, partial: seq<Rec>)
    requires Sender(inst)
    ensures Script(inst.(sending := sending, partial := partial))
         == Script(inst) + Tail(inst.rid + 1, sending, partial)
  {
    var a := Lead(inst.rid + 1, inst.params, inst.input);
    assert Script(inst) == a + [] == a;
    assert Script(inst.(sending := sending, partial := partial)) == a + Tail(inst.rid + 1, sending, partial);
  }

  /** The instance after writing a chunk, which may fail on the way. */
  function ChunkSent(inst: Inst, data: bytes, o: Outcome): Inst
    requires inst.rid + 1 < 0x1_0000
  {
    if o.Torn? then inst.(sending := Broken, partial := Landed(FlushRecs(StdIn, inst.rid + 1, data), o))
    else inst.(input := inst.input + [data])
  }

  lemma ChunkKeeps(inst: Inst, data: bytes, o: Outcome)
    requires Sender(inst) && data != [] && OwnOk(inst)
    ensures var recs, b := FlushRecs(StdIn, inst.rid + 1, data), ChunkSent(inst, data, o);
            Script(b) == Script(inst) + Landed(recs, o) && OwnOk(b)
  {
    if o.Torn? {
      ChunkTorn(inst, data, o);
    } else {
      ScriptGrows(inst, data);
    }
  }

  lemma ChunkTorn(inst: Inst, data: bytes, o: Outcome)
    requires Sender(inst) && data != [] && OwnOk(inst) && o.Torn?
    ensures var recs, b := FlushRecs(StdIn, inst.rid + 1, data), ChunkSent(inst, data, o);
            Script(b) == Script(inst) + Landed(recs, o) && OwnOk(b)
  {
    var some := Landed(FlushRecs(StdIn, inst.rid + 1, data), o);
    ScriptEnds(inst, Broken, some);
    SomePieces(inst.rid + 1, data, o);
  }

  lemma SomePieces(id: u16, data: bytes, o: Outcome)
    requires data != []
    ensures Pieces(id, Landed(FlushRecs(StdIn, id, data), o))
  {
    var recs := FlushRecs(StdIn, id, data);
    FlushCarries(StdIn, id, data);
    assert forall k :: 0 <= k < |Landed(recs, o)| ==> Landed(recs, o)[k] in recs;
  }

  lemma WireSendChunk(w: World, s: Step)
    requires Wire(w) && s.SendChunk? && Enabled(w, s) && Core(Take(w, s))
    ensures Wire(Take(w, s))
  {
    assert InstOk(w, s.i) && OwnOk(w.insts[s.i]);
    ChunkTaken(w, s);
    ChunkWritten(w.insts[s.i], IdOf(w, s.i), s.data, s.o);
    WireAppended(w, Take(w, s), s.i, ChunkOf(w, s.i, s.data), s.o);
  }

  lemma ChunkNoBegin(id: u16, data: bytes)
    ensures NoBegin(FlushRecs(StdIn, id, data), id)
    ensures data != [] ==> AllOfBody(FlushRecs(StdIn, id, data))
  {
    NoBeginFull(StdIn, id, data);
    if data != [] {
      FlushCarries(StdIn, id, data);
      var recs := FlushRecs(StdIn, id, data);
      assert forall k :: 0 <= k < |recs| ==> recs[k] in recs;
    }
  }

  lemma ChunkWritten(inst: Inst, id: u16, data: bytes, o: Outcome)
    requires Sender(inst) && id == inst.rid + 1 && data != [] && OwnOk(inst)
    ensures var b, recs := ChunkSent(inst, data, o), FlushRecs(StdIn, id, data);
            && NoBegin(recs, id) && AllOfBody(recs) && ChunkFields(inst, b)
            && Script(b) == Script(inst) + Landed(recs, o) && OwnOk(b)
  {
    ChunkNoBegin(id, data);
    ChunkKeeps(inst, data, o);
    ChunkChanges(inst, data, o);
  }

  predicate ChunkFields(a: Inst, b: Inst)
  {
    b == a.(input := b.input, sending := b.sending, partial := b.partial)
  }

  lemma ChunkChanges(inst: Inst, data: bytes, o: Outcome)
    requires inst.rid + 1 < 0x1_0000
    ensures ChunkFields(inst, ChunkSent(inst, data, o))
  {}

  lemma ChunkTaken(w: World, s: Step)
    requires Shape(w) && s.SendChunk? && Enabled(w, s)
    ensures Take(w, s) == Write(w, s.i, ChunkOf(w, s.i, s.data), s.o).(
                            insts := w.insts[s.i := ChunkSent(w.insts[s.i], s.data, s.o)])
  {}

  function EndSent(inst: Inst, o: Outcome): Inst
  {
    if o.Torn? then inst.(sending := Broken, partial := [])
    else inst.(sending := if Missing(inst.announced, |Flatten(inst.input)|) > 0 then Aborted else Ended)
  }

  lemma EndKeeps(inst: Inst, recs: seq<Rec>, o: Outcome)
    requires Sender(inst) && OwnOk(inst) && (o.Torn? ==> o.whole == 0)
    requires recs == Tail(inst.rid + 1, EndSent(inst, Written).sending, [])
    ensures var b := EndSent(inst, o); Script(b) == Script(inst) + Landed(recs, o) && OwnOk(b)
  {
    ScriptEnds(inst, EndSent(inst, o).sending, []);
    assert inst.(partial := []) == inst;
  }

  lemma WireSendEnd(w: World, s: Step)
    requires Wire(w) && s.SendEnd? && Enabled(w, s) && Core(Take(w, s))
    ensures Wire(Take(w, s))
  {
    var i := s.i;
    assert InstOk(w, i) && OwnOk(w.insts[i]);
    EndingTaken(w, s);
    EndWritten(w, i, s.o);
    WireAppended(w, Take(w, s), i, EndOf(w, i), s.o);
  }

  lemma EndWritten(w: World, i: nat, o: Outcome)
    requires Shape(w) && i < |w.insts| && Sender(w.insts[i]) && OwnOk(w.insts[i]) && (o.Torn? ==> o.whole == 0)
    ensures var b, recs := EndSent(w.insts[i], o), EndOf(w, i);
            && AllOfBody(recs) && ChunkFields(w.insts[i], b)
            && Script(b) == Script(w.insts[i]) + Landed(recs, o) && OwnOk(b)
  {
    EndKeeps(w.insts[i], EndOf(w, i), o);
  }

  lemma EndingTaken(w: World, s: Step)
    requires Shape(w) && s.SendEnd? && Enabled(w, s)
    ensures Take(w, s) == Write(w, s.i, EndOf(w, s.i), s.o).(insts := w.insts[s.i := EndSent(w.insts[s.i], s.o)])
    ensures s.o.Torn? ==> s.o.whole == 0
    ensures NoBegin(EndOf(w, s.i), IdOf(w, s.i))
  {}

  lemma OpeningTail(id: u16, params: bytes, hasBody: bool, rejected: bool)
    ensures NoBegin(if rejected then FullRecs(Params, id, params) + [AbortRec(id)]
                    else StreamRecs(Params, id, params) + if hasBody then [] else [Rec(StdIn, id, [])], id)
  {
    NoBeginFull(Params, id, params);
    var full := FullRecs(Params, id, params);
    if rejected {
      NoBeginMore(full, [AbortRec(id)], id);
    } else {
      var end := if hasBody then [] else [Rec(StdIn, id, [])];
      NoBeginMore(full, LastRecs(Params, id, Rest(params)), id);
      NoBeginMore(StreamRecs(Params, id, params), end, id);
    }
  }

  lemma NoBeginMore(a: seq<Rec>, b: seq<Rec>, id: u16)
    requires NoBegin(a, id) && NoBegin(b, id)
    ensures NoBegin(a + b, id)
  {}

  lemma NoBeginOpening(id: u16, params: bytes, hasBody: bool, rejected: bool)
    ensures var recs := OpeningRecs(id, params, hasBody, rejected);
            recs != [] && recs[0] == BeginRec(id, RESPONDER, KEEP_CONN) && NoBegin(recs[1..], id)
  {
    OpeningTail(id, params, hasBody, rejected);
    var recs := OpeningRecs(id, params, hasBody, rejected);
    assert recs[1..] == if rejected then FullRecs(Params, id, params) + [AbortRec(id)]
                        else StreamRecs(Params, id, params) + if hasBody then [] else [Rec(StdIn, id, [])];
  }

  /** What beginning a request changes. */
  lemma InsertChanges(w: World, x: nat, order: Order, o: Outcome)
    requires Shape(w) && w.pending > 0 && Vacant(w.slots, x) && x < w.max
    ensures var r, i := Insert(w, x, order, o), |w.insts|;
            && |r.insts| == i + 1 && r.epoch == w.epoch && |w.slots| <= |r.slots|
            && (forall j :: 0 <= j < i ==> r.insts[j] == w.insts[j])
            && (forall j :: 0 <= j < i && Holds(r, j) ==> Holds(w, j) && w.insts[j].rid != x)
            && r.wire == w.wire + Tagged(i, Landed(OrderRecs(x + 1, order), o))
            && r.insts[i] == Opened(w, x, order, o)
  {}

  /** A new request begins: its ID is not held by anybody else. */
  lemma WireInsert(w: World, x: nat, order: Order, o: Outcome)
    requires Wire(w) && w.pending > 0 && Vacant(w.slots, x) && x < w.max && Writable(w, OrderRecs(x + 1, order), o)
    ensures Wire(Insert(w, x, order, o))
  {
    var r := Insert(w, x, order, o);
    CoreInsert(w, x, order, o);
    InsertChanges(w, x, order, o);
    WireInserted(w, r, |w.insts|, x, order, o);
    WriteTorn(w, |w.insts|, OrderRecs(x + 1, order), o);
  }

  lemma WireInserted(w: World, r: World, i: nat, x: nat, order: Order, o: Outcome)
    requires Wire(w) && Core(r) && i == |w.insts| && |r.insts| == i + 1 && r.epoch == w.epoch && |w.slots| <= |r.slots|
    requires forall j :: 0 <= j < i ==> r.insts[j] == w.insts[j]
    requires forall j :: 0 <= j < i && Holds(r, j) ==> Holds(w, j) && w.insts[j].rid != x
    requires x < w.max && Writable(w, OrderRecs(x + 1, order), o)
    requires r.wire == w.wire + Tagged(i, Landed(OrderRecs(x + 1, order), o))
    requires r.insts[i] == Opened(w, x, order, o)
    ensures forall k :: 0 <= k < |r.wire| ==> RecOk(r, k)
    ensures forall j :: 0 <= j < |r.insts| ==> SenderOk(r, j) && OwnOk(r.insts[j])
  {
    var id: u16, recs := x + 1, Landed(OrderRecs(x + 1, order), o);
    OpeningBegins(id, order, o);
    OpenedOk(w, x, order, o);
    assert |recs| > 0 || o.Torn?;
    NewRequest(w, r, i, recs, id);
  }

  /** The records of one more request, and the request's sender as it starts. */
  lemma NewRequest(w: World, r: World, i: nat, recs: seq<Rec>, id: u16)
    requires Wire(w) && Core(r) && i == |w.insts| && |r.insts| == i + 1 && r.epoch == w.epoch && |w.slots| <= |r.slots|
    requires forall j :: 0 <= j < i ==> r.insts[j] == w.insts[j]
    requires forall j :: 0 <= j < i && Holds(r, j) ==> Holds(w, j) && w.insts[j].rid + 1 != id
    requires Begins(recs, id) && r.wire == w.wire + Tagged(i, recs) && r.insts[i].rid + 1 == id
    requires r.insts[i].epoch == r.epoch && r.insts[i].start == |w.wire|
    requires Script(r.insts[i]) == recs && OwnOk(r.insts[i])
    requires r.insts[i].sending == Open ==> recs != []
    ensures forall k :: 0 <= k < |r.wire| ==> RecOk(r, k)
    ensures forall j :: 0 <= j < |r.insts| ==> SenderOk(r, j) && OwnOk(r.insts[j])
  {
    InsertRecs(w, r, i, recs, id);
    OthersKept(w, r, i, recs, id);
    OpeningProject(w, i, recs);
    OpeningSender(w, r, i, recs);
    OwnsKept(w, r);
    AllAndLast(r, i);
  }

  lemma AllAndLast(r: World, i: nat)
    requires Shape(r) && |r.insts| == i + 1 && SenderOk(r, i) && OwnOk(r.insts[i])
    requires (forall j :: 0 <= j < i ==> SenderOk(r, j)) && forall j :: 0 <= j < i ==> OwnOk(r.insts[j])
    ensures forall j :: 0 <= j < |r.insts| ==> SenderOk(r, j) && OwnOk(r.insts[j])
  {}

  lemma OwnsKept(w: World, r: World)
    requires Wire(w) && |w.insts| <= |r.insts| && forall j :: 0 <= j < |w.insts| ==> r.insts[j] == w.insts[j]
    ensures forall j :: 0 <= j < |w.insts| ==> OwnOk(r.insts[j])
  {
    forall j | 0 <= j < |w.insts| ensures OwnOk(r.insts[j]) {
      assert OwnOk(w.insts[j]);
    }
  }

  /** The records of an opening, or the first of them. */
  predicate Begins(recs: seq<Rec>, id: u16)
  {
    Sized(recs) && (recs != [] ==> recs[0].rtype == BeginRequest && recs[0].id == id && NoBegin(recs[1..], id))
  }

  lemma OthersKept(w: World, r: World, i: nat, recs: seq<Rec>, id: u16)
    requires Wire(w) && Core(r) && i == |w.insts| < |r.insts| && |w.slots| <= |r.slots| && r.epoch == w.epoch
    requires forall j :: 0 <= j < i ==> r.insts[j] == w.insts[j]
    requires forall j :: 0 <= j < i && Holds(r, j) ==> Holds(w, j) && w.insts[j].rid + 1 != id
    requires Begins(recs, id) && r.wire == w.wire + Tagged(i, recs)
    ensures forall j :: 0 <= j < i ==> SenderOk(r, j)
  {
    assert forall k :: 1 <= k < |recs| ==> recs[k] == recs[1..][k - 1];
    forall j | 0 <= j < i ensures SenderOk(r, j) {
      assert SenderOk(w, j) && InstOk(r, j);
      SenderKept(w.wire, w.epoch, w.insts[j], j, i, recs);
    }
  }

  lemma InsertRecs(w: World, r: World, i: nat, recs: seq<Rec>, id: u16)
    requires Wire(w) && Shape(r) && i == |w.insts| && i < |r.insts| && r.epoch == w.epoch
    requires forall j :: 0 <= j < i ==> r.insts[j] == w.insts[j]
    requires Begins(recs, id)
    requires r.wire == w.wire + Tagged(i, recs) && r.insts[i].rid + 1 == id
    requires r.insts[i].epoch == r.epoch && r.insts[i].start == |w.wire|
    ensures forall k :: 0 <= k < |r.wire| ==> RecOk(r, k)
  {
    forall k | 0 <= k < |r.wire| ensures RecOk(r, k) {
      if k < |w.wire| {
        assert RecOk(w, k);
        RecKept(w, r, k);
      } else {
        OpeningRec(w, r, i, recs, id, k);
      }
    }
  }

  lemma OpeningSender(w: World, r: World, i: nat, recs: seq<Rec>)
    requires Shape(w) && Shape(r) && i < |r.insts| && r.insts[i].epoch == r.epoch
    requires r.wire == w.wire + Tagged(i, recs) && r.insts[i].start == |w.wire|
    requires forall k :: 0 <= k < |r.wire| ==> RecOk(r, k)
    requires r.insts[i].sending == Open ==> recs != []
    requires Project(r.wire, i) == recs == Script(r.insts[i])
    ensures SenderOk(r, i)
  {
    if recs != [] {
      assert RecOk(r, |r.wire| - 1) && r.wire[..|r.wire|] == r.wire;
    }
  }

  lemma OpeningBegins(id: u16, order: Order, o: Outcome)
    ensures Begins(Landed(OrderRecs(id, order), o), id) && OrderRecs(id, order) != []
  {
    var recs := OrderRecs(id, order);
    NoBeginOpening(id, order.params, order.len.Some?, order.rejected);
    if o.Torn? && 0 < o.whole <= |recs| {
      assert recs[..o.whole][1..] == recs[1..][..o.whole - 1];
    }
  }

  /** The sender of a request that has just begun. */
  lemma OpenedOk(w: World, x: nat, order: Order, o: Outcome)
    requires x + 1 < 0x1_0000 && Writable(w, OrderRecs(x + 1, order), o)
    ensures var inst := Opened(w, x, order, o);
            Script(inst) == Landed(OrderRecs(x + 1, order), o) && OwnOk(inst)
  {
    OpeningScript(w, x, order, o);
    OpenedInput(w, x, order, o);
    OpenedPartial(w, x, order, o);
  }

  lemma OpenedInput(w: World, x: nat, order: Order, o: Outcome)
    requires x + 1 < 0x1_0000
    ensures InputOk(Opened(w, x, order, o))
  {}

  lemma OpenedPartial(w: World, x: nat, order: Order, o: Outcome)
    requires x + 1 < 0x1_0000 && Writable(w, OrderRecs(x + 1, order), o)
    ensures PartialOk(Opened(w, x, order, o))
  {
    if o.Torn? {
      OpeningBegins(x + 1, order, o);
      TornOpening(x + 1, order, o);
    }
  }

  lemma TornOpening(id: u16, order: Order, o: Outcome)
    requires o.Torn? && OrderRecs(id, order) != [] && o.whole < |OrderRecs(id, order)|
    ensures Unfinished(id, order.params, Landed(OrderRecs(id, order), o))
  {
    ProperStart(OrderRecs(id, order), o.whole);
    OpeningOfOrder(id, order, OrderRecs(id, order)[..o.whole]);
  }

  lemma ProperStart(recs: seq<Rec>, n: nat)
    requires n < |recs|
    ensures recs[..n] < recs
  {}

  lemma OpeningOfOrder(id: u16, order: Order, recs: seq<Rec>)
    requires recs < OrderRecs(id, order)
    ensures Unfinished(id, order.params, recs)
  {
    assert recs < OpeningRecs(id, order.params, order.len.Some?, order.rejected);
  }

  lemma OpeningProject(w: World, i: nat, recs: seq<Rec>)
    requires Wire(w) && i == |w.insts|
    ensures Project(w.wire + Tagged(i, recs), i) == recs
  {
    ProjectTagged(w.wire, i, recs, i);
    forall k | 0 <= k < |w.wire| ensures w.wire[k].inst != i {
      assert RecOk(w, k);
    }
    ProjectNone(w.wire, i);
  }

  lemma OpeningRec(w: World, r: World, i: nat, recs: seq<Rec>, id: u16, k: nat)
    requires Shape(w) && Shape(r) && i == |w.insts| && i < |r.insts| && Begins(recs, id)
    requires r.wire == w.wire + Tagged(i, recs) && r.insts[i].rid + 1 == id
    requires r.insts[i].epoch == r.epoch && r.insts[i].start == |w.wire|
    requires |w.wire| <= k < |r.wire|
    ensures RecOk(r, k)
  {
    var m := k - |w.wire|;
    var before := RecsOf(w.wire) + [recs[0]];
    assert RecsOf(r.wire[..k + 1]) == before + recs[1..][..m];
    LastBeginKept(before, recs[1..][..m], id);
    assert before[|w.wire|] == recs[0];
    assert recs[m].id == id && (m > 0 ==> recs[m] == recs[1..][m - 1]);
  }

  lemma SenderKept(wire: seq<SentRec>, epoch: nat, inst: Inst, j: nat, i: nat, recs: seq<Rec>)
    requires inst.rid + 1 < 0x1_0000 && j != i && Attributed(wire, epoch, inst, j)
    requires inst.sending == Open ==> forall k :: 0 <= k < |recs| ==> recs[k].id != inst.rid + 1
    ensures Attributed(wire + Tagged(i, recs), epoch, inst, j)
  {
    ScriptKept(wire, epoch, inst, j, i, recs, Script(inst));
  }

  lemma ScriptKept(wire: seq<SentRec>, epoch: nat, inst: Inst, j: nat, i: nat, recs: seq<Rec>, script: seq<Rec>)
    requires inst.rid + 1 < 0x1_0000 && j != i && WroteScript(wire, epoch, inst, j, script)
    requires inst.sending == Open ==> forall k :: 0 <= k < |recs| ==> recs[k].id != inst.rid + 1
    ensures WroteScript(wire + Tagged(i, recs), epoch, inst, j, script)
  {
    RecsOfAppend(wire, i, recs);
    if inst.sending == Open {
      LastBeginKept(RecsOf(wire), recs, inst.rid + 1);
    }
    ProjectTagged(wire, i, recs, j);
    assert Project(wire, j) + [] == Project(wire, j);
  }

  lemma {:induction false} ProjectNone(wire: seq<SentRec>, i: nat)
    requires forall k :: 0 <= k < |wire| ==> wire[k].inst != i
    ensures Project(wire, i) == []
  {
    if wire != [] {
      ProjectNone(wire[..|wire| - 1], i);
    }
  }

  lemma OpeningScript(w: World, x: nat, order: Order, o: Outcome)
    requires x + 1 < 0x1_0000
    ensures Script(Opened(w, x, order, o)) == Landed(OrderRecs(x + 1, order), o)
  {
    if !o.Torn? {
      WholeScript(x + 1, order);
    }
  }

  lemma WholeScript(id: u16, order: Order)
    ensures var b, end := [BeginRec(id, RESPONDER, KEEP_CONN)], if order.len.Some? then [] else [Rec(StdIn, id, [])];
            OrderRecs(id, order)
            == if order.rejected then b + FullRecs(Params, id, order.params) + [AbortRec(id)]
               else b + StreamRecs(Params, id, order.params) + end
  {
    var b := [BeginRec(id, RESPONDER, KEEP_CONN)];
    if order.rejected {
      Associate(b, FullRecs(Params, id, order.params), [AbortRec(id)]);
    } else {
      Associate(b, StreamRecs(Params, id, order.params), if order.len.Some? then [] else [Rec(StdIn, id, [])]);
    }
  }

  // ---------- every step ----------

  /** Polling the connection writes nothing. */
  lemma WireFrame(w: World, ev: Event)
    requires Shape(w) && Possible(w, ev)
    ensures var r := Happen(w, ev); r.wire == w.wire && r.jammed == w.jammed && r.torn == w.torn
  {
    if ev.Got? {
      WireFrameMany(w, ev.k);
    }
  }

  lemma {:induction false} WireFrameMany(w: World, k: nat)
    requires Shape(w) && k <= |w.inflight|
    ensures var r := DeliverMany(w, k); r.wire == w.wire && r.jammed == w.jammed && r.torn == w.torn
    decreases k
  {
    if k > 0 {
      WireFrameMany(Deliver(w), k - 1);
    }
  }

  lemma WireHappen(w: World, ev: Event)
    requires Wire(w) && Possible(w, ev)
    ensures Wire(Happen(w, ev))
  {
    var r := Happen(w, ev);
    CoreHappen(w, ev);
    EventFrame(w, ev);
    WireFrame(w, ev);
    forall i | 0 <= i < |w.insts| ensures w.insts[i] == r.insts[i].(delivered := w.insts[i].delivered) {
      SameInst(w, ev, i);
    }
    WireKept(w, r);
  }

  lemma WireReconnect(w: World)
    requires Wire(w)
    ensures Wire(Reconnect(w))
  {
    CoreReconnect(w);
    var r := Reconnect(w);
    forall i | 0 <= i < |r.insts| ensures SenderOk(r, i) && OwnOk(r.insts[i]) {
      assert SenderOk(w, i) && OwnOk(w.insts[i]) && InstOk(w, i);
    }
  }

  lemma WireStart(w: World, s: Step)
    requires Wire(w) && s.Start? && Enabled(w, s)
    ensures Wire(Take(w, s))
  {
    var h := StartInserts(w, s);
    WireInsert(h, s.x, s.order, s.o);
  }

  /** A request begins in a world in which all that holds that has been found before. */
  lemma StartInserts(w: World, s: Step) returns (h: World)
    requires Wire(w) && s.Start? && Enabled(w, s)
    ensures Wire(h) && h.pending > 0 && Vacant(h.slots, s.x) && s.x < h.max
    ensures Writable(h, OrderRecs(s.x + 1, s.order), s.o) && Take(w, s) == Insert(h, s.x, s.order, s.o)
  {
    h := Prepared(w, s.ev);
    WirePrepared(w, s.ev);
    EventFrame(w, s.ev);
  }

  lemma WirePrepared(w: World, ev: Event)
    requires Wire(w) && Possible(w, ev)
    ensures Wire(Prepared(w, ev))
  {
    WireHappen(w, ev);
    if ev.Lost? {
      WireReconnect(Happen(w, ev));
    }
  }

  lemma WirePoll(w: World, s: Step)
    requires Wire(w) && s.Poll? && Enabled(w, s)
    ensures Wire(Take(w, s))
  {
    var h := Happen(w, s.ev);
    WireHappen(w, s.ev);
    SameInst(w, s.ev, s.i);
    WirePollOne(h, s.i, s.complete);
    PollTaken(w, s);
  }

  lemma PollTaken(w: World, s: Step)
    requires Shape(w) && s.Poll? && Enabled(w, s)
    ensures s.i < |Happen(w, s.ev).insts| && Take(w, s) == PollOne(Happen(w, s.ev), s.i, s.complete)
  {
    EventFrame(w, s.ev);
  }

  lemma WirePollOne(w: World, i: nat, complete: bool)
    requires Wire(w) && i < |w.insts| && Pollable(w.insts[i])
    ensures Wire(PollOne(w, i, complete))
  {
    CorePollOne(w, i, complete);
    PollSends(w, i, complete);
    WireOwn(w, PollOne(w, i, complete), i);
  }

  lemma PollSends(w: World, i: nat, complete: bool)
    requires Core(w) && i < |w.insts| && Live(w.insts[i])
    ensures var r := PollOne(w, i, complete);
            && r.wire == w.wire && r.epoch == w.epoch && |r.insts| == |w.insts|
            && r.jammed == w.jammed && r.torn == w.torn
            && r.insts == w.insts[i := r.insts[i]]
            && r.insts[i] == w.insts[i].(phase := r.insts[i].phase, heading := r.insts[i].heading,
                                         waiting := r.insts[i].waiting,
                                         taken := r.insts[i].taken, yielded := r.insts[i].yielded)
            && r.insts[i].phase != Rejected && r.insts[i].phase != Unopened
  {
    assert InstOk(w, i);
  }

  lemma WireStep(w: World, s: Step)
    requires Wire(w) && Enabled(w, s)
    ensures Wire(Take(w, s))
  {
    CoreStep(w, s);
    match s {
      case Acquire => WireKept(w, Take(w, s));
      case GiveUp =>
        WireHappen(w, Lost);
        WireKept(Lose(w), Take(w, s));
      case Start(_, _, _, _) => WireStart(w, s);
      case SendChunk(_, _, _) => WireSendChunk(w, s);
      case SendEnd(_, _) => WireSendEnd(w, s);
      case Poll(_, _, _) => WirePoll(w, s);
      case Peer(i, body) => WirePeer(w, i, body);
      case Handover(i, head) => WireHandover(w, i, head);
      case Drop(i, locked) => WireDrop(w, i, locked);
    }
  }

  /** One instance moves on, but not as a sender. */
  lemma WireOwn(w: World, r: World, i: nat)
    requires Wire(w) && Core(r) && i < |w.insts| == |r.insts| && SameSender(w.insts[i], r.insts[i])
    requires r.wire == w.wire && r.epoch == w.epoch && r.jammed == w.jammed && r.torn == w.torn
    requires r.insts == w.insts[i := r.insts[i]]
    ensures Wire(r)
  {
    WireKept(w, r);
  }

  lemma WirePeer(w: World, i: nat, body: Body)
    requires Wire(w) && Enabled(w, Peer(i, body)) && Core(Take(w, Peer(i, body)))
    ensures Wire(Take(w, Peer(i, body)))
  {
    PeerSender(w, i, body);
    WireOwn(w, Take(w, Peer(i, body)), i);
  }

  lemma PeerSender(w: World, i: nat, body: Body)
    requires Shape(w) && Enabled(w, Peer(i, body))
    ensures var r := Take(w, Peer(i, body));
            && |r.insts| == |w.insts| && r.insts == w.insts[i := r.insts[i]] && SameSender(w.insts[i], r.insts[i])
            && r.wire == w.wire && r.epoch == w.epoch && r.jammed == w.jammed && r.torn == w.torn
  {}

  lemma WireHandover(w: World, i: nat, head: nat)
    requires Wire(w) && Enabled(w, Step.Handover(i, head)) && Core(Take(w, Step.Handover(i, head)))
    ensures Wire(Take(w, Step.Handover(i, head)))
  {
    assert InstOk(w, i);
    HandoverOwn(w, i, head);
    WireOwn(w, Take(w, Step.Handover(i, head)), i);
  }

  lemma WireDrop(w: World, i: nat, locked: bool)
    requires Wire(w) && Enabled(w, Step.Drop(i, locked)) && Core(Take(w, Step.Drop(i, locked)))
    ensures Wire(Take(w, Step.Drop(i, locked)))
  {
    assert InstOk(w, i) && OwnOk(w.insts[i]);
    WireOwn(w, Take(w, Step.Drop(i, locked)), i);
  }

  // ---------- what follows for the peer ----------

  lemma {:induction false} ViewIsProject(w: World, b: nat, n: nat)
    requires Wire(w) && b < n <= |w.wire| && w.wire[b].rec.rtype == BeginRequest
    ensures PeerView(RecsOf(w.wire[..n]), b, w.wire[b].rec.id) == Project(w.wire[..n], w.wire[b].inst)
  {
    if n - 1 > b {
      ViewIsProject(w, b, n - 1);
    } else {
      ViewEmpty(w, b, n - 1);
    }
    ViewLast(w, b, n);
  }

  /** The last record is in the view of the peer exactly if it is one of the request's. */
  lemma ViewLast(w: World, b: nat, n: nat)
    requires Wire(w) && b < n <= |w.wire| && w.wire[b].rec.rtype == BeginRequest
    ensures var i, id, last := w.wire[b].inst, w.wire[b].rec.id, w.wire[n - 1];
            var more := if last.inst == i then [last.rec] else [];
            && PeerView(RecsOf(w.wire[..n]), b, id) == PeerView(RecsOf(w.wire[..n - 1]), b, id) + more
            && Project(w.wire[..n], i) == Project(w.wire[..n - 1], i) + more
  {
    var recs := RecsOf(w.wire[..n]);
    assert w.wire[..n][..n - 1] == w.wire[..n - 1];
    assert recs[..n - 1] == RecsOf(w.wire[..n - 1]);
    OwnerOf(w, b, n - 1);
  }

  /** The begin record at b is the begin record of its instance. */
  lemma BeginsOwn(w: World, b: nat)
    requires Wire(w) && b < |w.wire| && w.wire[b].rec.rtype == BeginRequest
    ensures var i := w.wire[b].inst;
            i < |w.insts| && w.insts[i].epoch == w.epoch && w.insts[i].start == b
            && w.wire[b].rec.id == IdOf(w, i)
  {
    assert RecOk(w, b);
    assert RecsOf(w.wire[..b + 1])[b] == w.wire[b].rec;
  }

  /** A record belongs to the request begun at b exactly if the peer attributes it to that request. */
  lemma OwnerOf(w: World, b: nat, k: nat)
    requires Wire(w) && b < |w.wire| && k < |w.wire| && w.wire[b].rec.rtype == BeginRequest
    ensures w.wire[k].inst == w.wire[b].inst
       <==> w.wire[k].rec.id == w.wire[b].rec.id
            && LastBegin(RecsOf(w.wire[..k + 1]), w.wire[k].rec.id) == Some(b)
  {
    BeginsOwn(w, b);
    assert RecOk(w, k) && SenderOk(w, w.wire[k].inst);
    ProjectSome(w.wire, k);
  }

  lemma {:induction false} ProjectSome(wire: seq<SentRec>, k: nat)
    requires k < |wire|
    ensures Project(wire, wire[k].inst) != []
  {
    if k < |wire| - 1 {
      ProjectSome(wire[..|wire| - 1], k);
    }
  }

  lemma {:induction false} ViewEmpty(w: World, b: nat, n: nat)
    requires Wire(w) && n <= b < |w.wire| && w.wire[b].rec.rtype == BeginRequest
    ensures PeerView(RecsOf(w.wire[..n]), b, w.wire[b].rec.id) == [] && Project(w.wire[..n], w.wire[b].inst) == []
  {
    if n > 0 {
      assert w.wire[..n][..n - 1] == w.wire[..n - 1];
      assert RecsOf(w.wire[..n])[..n - 1] == RecsOf(w.wire[..n - 1]);
      OwnerOf(w, b, n - 1);
      ViewEmpty(w, b, n - 1);
    }
  }

  /** What the peer reads: the records on the wire, and behind them at most a part of one. */
  function PeerBytes(w: World): bytes
    requires Sized(RecsOf(w.wire))
  {
    WireBytes(RecsOf(w.wire)) + w.torn
  }

  lemma PeerReads(w: World)
    requires Wire(w)
    ensures Sized(RecsOf(w.wire)) && Deframe(PeerBytes(w)) == RecsOf(w.wire)
  {
    forall k | 0 <= k < |w.wire| ensures |w.wire[k].rec.payload| <= MAX_LENGTH {
      assert RecOk(w, k);
    }
    DeframeThen(RecsOf(w.wire), w.torn);
    assert RecsOf(w.wire) + [] == RecsOf(w.wire);
  }

  /** The peer's parse of the bytes: for every request begun on this connection, exactly its own script. */
  lemma PeerSeesScripts(w: World, b: nat)
    requires Wire(w) && b < |w.wire| && w.wire[b].rec.rtype == BeginRequest
    ensures Sized(RecsOf(w.wire)) && w.wire[b].inst < |w.insts|
    ensures var recs := Deframe(PeerBytes(w));
            && recs == RecsOf(w.wire)
            && PeerView(recs, b, recs[b].id) == Script(w.insts[w.wire[b].inst])
  {
    PeerReads(w);
    assert w.wire[..|w.wire|] == w.wire;
    ViewIsProject(w, b, |w.wire|);
    BeginsOwn(w, b);
    assert SenderOk(w, w.wire[b].inst);
  }

  /** Every request of this connection of which a record was written has begun on its wire. */
  lemma EveryRequestBegins(w: World, i: nat)
    requires Wire(w) && i < |w.insts| && w.insts[i].epoch == w.epoch && Script(w.insts[i]) != []
    ensures var b := w.insts[i].start;
            b < |w.wire| && w.wire[b].inst == i && w.wire[b].rec.rtype == BeginRequest
  {
    assert SenderOk(w, i) && RecOk(w, w.insts[i].start);
  }

  // ---------- the grammar of a script ----------

  lemma {:induction false} InputCarries(id: u16, chunks: seq<bytes>)
    requires NoEmpty(chunks)
    ensures Payloads(InputRecs(id, chunks)) == Flatten(chunks)
    ensures forall k :: 0 <= k < |InputRecs(id, chunks)| ==> InputPiece(id, InputRecs(id, chunks)[k])
    decreases |chunks|
  {
    if chunks != [] {
      var n := |chunks| - 1;
      var front, last := InputRecs(id, chunks[..n]), FlushRecs(StdIn, id, chunks[n]);
      InputCarries(id, chunks[..n]);
      FlushCarries(StdIn, id, chunks[n]);
      PayloadsAppend(front, last);
      assert chunks == chunks[..n] + [chunks[n]];
      FlattenPush(chunks[..n], chunks[n]);
      assert forall k :: 0 <= k < |last| ==> last[k] in last;
    }
  }

  /**
   * The life of a request on the wire: its begin record; its parameters as one stream; nonempty input records;
   * and at the end the empty input record, an abort, or nothing yet.
   */
  predicate Parts(id: u16, recs: seq<Rec>, params: bytes, input: bytes, sending: Sending, m: nat, n: nat)
  {
    && 1 <= m <= n <= |recs|
    && recs[0] == Rec(BeginRequest, id, [0, 1, 1, 0, 0, 0, 0, 0])
    && IsStream(Params, id, params, recs[1..m])
    && Pieces(id, recs[m..n]) && Payloads(recs[m..n]) == input
    && recs[n..] == match sending
                    case Ended => [Rec(StdIn, id, [])]
                    case Aborted => [Rec(AbortRequest, id, [])]
                    case _ => []
  }

  /** A refused request: its begin record, full records with the start of its parameters, an abort. */
  predicate CutShort(id: u16, recs: seq<Rec>, params: bytes)
  {
    var n := |recs| - 1;
    && n >= 1
    && recs[0] == Rec(BeginRequest, id, [0, 1, 1, 0, 0, 0, 0, 0]) && recs[n] == Rec(AbortRequest, id, [])
    && (forall k :: 1 <= k < n ==> recs[k].rtype == Params && recs[k].id == id && |recs[k].payload| == 65528)
    && Payloads(recs[1..n]) <= params && |params| - |Payloads(recs[1..n])| <= 65528
    && (Payloads(recs[1..n]) == params ==> params == [])
  }

  /** What the peer may see of a request: all of its life so far, a refused one, or the start of a failed opening. */
  ghost predicate Conforms(inst: Inst, recs: seq<Rec>)
    requires inst.rid + 1 < 0x1_0000
  {
    var id: u16 := inst.rid + 1;
    match inst.phase
    case Unopened => Unfinished(id, inst.params, recs)
    case Rejected => CutShort(id, recs, inst.params)
    case _ =>
      exists m, n :: Parts(id, recs, inst.params, Flatten(inst.input) + Payloads(inst.partial), inst.sending, m, n)
  }

  lemma ScriptConforms(inst: Inst)
    requires inst.rid + 1 < 0x1_0000 && NoEmpty(inst.input) && PartialOk(inst)
    ensures Conforms(inst, Script(inst))
  {
    var id: u16 := inst.rid + 1;
    match inst.phase {
      case Unopened =>
      case Rejected => RefusedConforms(id, inst.params);
      case _ => LifeConforms(inst);
    }
  }

  lemma LifeConforms(inst: Inst)
    requires inst.rid + 1 < 0x1_0000 && inst.phase != Unopened && inst.phase != Rejected
    requires NoEmpty(inst.input) && PartialOk(inst)
    ensures Conforms(inst, Script(inst))
  {
    var id: u16 := inst.rid + 1;
    var ins := InputRecs(id, inst.input);
    var h := [BeginRec(id, RESPONDER, KEEP_CONN)] + StreamRecs(Params, id, inst.params);
    FramedStream(Params, id, inst.params);
    InputCarries(id, inst.input);
    PayloadsAppend(ins, inst.partial);
    LeadParts(id, inst.params, inst.input);
    var end := if inst.sending == Broken then [] else Tail(id, inst.sending, []);
    TailInTwo(h + ins, inst.partial, end);
    Associate(h, ins, inst.partial);
    Assemble(inst, Script(inst), StreamRecs(Params, id, inst.params), ins + inst.partial, end);
  }

  lemma TailInTwo(h: seq<Rec>, a: seq<Rec>, b: seq<Rec>)
    ensures a == [] ==> h + [] + b == h + b
    ensures b == [] ==> h + a + b == h + a
  {}

  lemma Assemble(inst: Inst, recs: seq<Rec>, ps: seq<Rec>, ins: seq<Rec>, end: seq<Rec>)
    requires inst.rid + 1 < 0x1_0000 && inst.phase != Unopened && inst.phase != Rejected
    requires recs == [BeginRec(inst.rid + 1, RESPONDER, KEEP_CONN)] + ps + ins + end
    requires IsStream(Params, inst.rid + 1, inst.params, ps)
    requires Pieces(inst.rid + 1, ins) && Payloads(ins) == Flatten(inst.input) + Payloads(inst.partial)
    requires end == if inst.sending == Broken then [] else Tail(inst.rid + 1, inst.sending, [])
    ensures Conforms(inst, recs)
  {
    AssembleParts(inst.rid + 1, recs, ps, ins, end, inst.params, inst.sending);
  }

  lemma AssembleParts(id: u16, recs: seq<Rec>, ps: seq<Rec>, ins: seq<Rec>, end: seq<Rec>, params: bytes, s: Sending)
    requires recs == [BeginRec(id, RESPONDER, KEEP_CONN)] + ps + ins + end
    requires IsStream(Params, id, params, ps) && Pieces(id, ins)
    requires end == if s == Broken then [] else Tail(id, s, [])
    ensures Parts(id, recs, params, Payloads(ins), s, 1 + |ps|, 1 + |ps| + |ins|)
  {
    Asks(id);
    Slices(BeginRec(id, RESPONDER, KEEP_CONN), ps, ins, end, recs);
  }

  /** A request asks for a responder, and to keep the connection. */
  lemma Asks(id: u16)
    ensures BeginRec(id, RESPONDER, KEEP_CONN) == Rec(BeginRequest, id, [0, 1, 1, 0, 0, 0, 0, 0])
  {}

  lemma RefusedConforms(id: u16, params: bytes)
    ensures CutShort(id, [BeginRec(id, RESPONDER, KEEP_CONN)] + FullRecs(Params, id, params) + [AbortRec(id)], params)
  {
    Asks(id);
    var full := FullRecs(Params, id, params);
    var recs := [BeginRec(id, RESPONDER, KEEP_CONN)] + full + [AbortRec(id)];
    FullCarries(Params, id, params);
    assert recs[1..|recs| - 1] == full;
    assert forall k :: 1 <= k < |recs| - 1 ==> recs[k] == full[k - 1];
  }

  lemma Slices(first: Rec, a: seq<Rec>, b: seq<Rec>, c: seq<Rec>, all: seq<Rec>)
    requires all == [first] + a + b + c
    ensures var m := 1 + |a|;
            var n := m + |b|;
            && all[0] == first && all[1..m] == a && all[m..n] == b && all[n..] == c
            && forall k :: m <= k < n ==> all[k] == b[k - m]
  {}
}
