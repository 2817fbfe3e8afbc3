/** From the records a peer writes to the buffers of the requests, over any network. */
module EndToEnd {
  import opened Octets
  import opened Records
  import opened Reader
  import opened Automaton
  import opened Framing
  import opened Codec
  import opened Requests

  /** A record as a peer may write it: any version and any padding, of any length its byte can say. */
  datatype Padded = Padded(version: byte, rec: Rec, pad: bytes)

  predicate Writable(p: Padded)
  {
    |p.rec.payload| <= MAX_LENGTH && |p.pad| < 0x100
  }

  function PaddedHeader(p: Padded): Header
    requires Writable(p)
  {
    Header(p.version, p.rec.rtype, p.rec.id, |p.rec.payload|, |p.pad|)
  }

  function PaddedBytes(p: Padded): bytes
    requires Writable(p)
  {
    HeaderBytes(PaddedHeader(p)) + p.rec.payload + p.pad
  }

  predicate AllWritable(ps: seq<Padded>)
  {
    forall k :: 0 <= k < |ps| ==> Writable(ps[k])
  }

  function PaddedWire(ps: seq<Padded>): bytes
    requires AllWritable(ps)
  {
    if ps == [] then [] else PaddedBytes(ps[0]) + PaddedWire(ps[1..])
  }

  function RecsIn(ps: seq<Padded>): (r: seq<Rec>)
    ensures |r| == |ps|
  {
    seq(|ps|, k requires 0 <= k < |ps| => ps[k].rec)
  }

  /** A record as this crate writes it, padded with the bytes of its header. */
  function Own(r: Rec): Padded
    requires |r.payload| <= MAX_LENGTH
  {
    Padded(VERSION_1, r, HeaderBytes(RecHeader(r))[..RecHeader(r).paddingLength])
  }

  lemma OwnPadding(r: Rec)
    requires |r.payload| <= MAX_LENGTH
    ensures Writable(Own(r)) && PaddedBytes(Own(r)) == RecBytes(r)
  {}

  function OwnAll(recs: seq<Rec>): (ps: seq<Padded>)
    requires Sized(recs)
    ensures |ps| == |recs|
  {
    seq(|recs|, k requires 0 <= k < |recs| => Own(recs[k]))
  }

  /** What this crate writes is such a stream: a peer that frames its records likewise is among those meant here. */
  lemma {:induction false} OwnWire(recs: seq<Rec>)
    requires Sized(recs)
    ensures AllWritable(OwnAll(recs)) && PaddedWire(OwnAll(recs)) == WireBytes(recs) && RecsIn(OwnAll(recs)) == recs
  {
    forall k | 0 <= k < |recs| ensures Writable(OwnAll(recs)[k]) {
      OwnPadding(recs[k]);
    }
    if recs != [] {
      OwnPadding(recs[0]);
      assert OwnAll(recs)[1..] == OwnAll(recs[1..]);
      OwnWire(recs[1..]);
    }
  }

  /** A record the client can take: output, or a whole end record with a known status. */
  predicate GoodRec(r: Rec)
  {
    && |r.payload| <= MAX_LENGTH
    && (Splittable(r.rtype) || (Whole(r.rtype) && |r.payload| == 8))
    && (r.rtype == EndRequest ==> StatusOf(r.payload[4]).Some?)
  }

  lemma {:induction false} GoodHeaderBytes(got: bytes, data: bytes)
    requires |got| + |data| == HEADER_LEN
    requires ParseHeader(got + data).Some? && Acceptable(ParseHeader(got + data).value)
    ensures Good(InHeader(got), data)
    decreases |data|
  {
    if data != [] {
      assert (got + [data[0]]) + data[1..] == got + data;
      if |data| > 1 {
        GoodHeaderBytes(got + [data[0]], data[1..]);
      } else {
        assert data == [data[0]] && data[1..] == [];
      }
    }
  }

  lemma {:induction false} GoodContent(h: Header, data: bytes)
    requires |data| <= h.contentLength
    requires h.rtype == EndRequest && 0 <= h.contentLength - 4 < |data| ==> StatusOf(data[h.contentLength - 4]).Some?
    ensures Good(Enter(h), data)
    decreases |data|
  {
    if data != [] {
      GoodContent(h.(contentLength := h.contentLength - 1), data[1..]);
    }
  }

  lemma {:induction false} GoodPadding(h: Header, seen: bytes, data: bytes)
    requires |seen| + |data| <= h.paddingLength
    ensures Good(if |seen| < h.paddingLength then InPadding(h, seen) else InHeader([]), data)
    decreases |data|
  {
    if data != [] {
      GoodPadding(h, seen + [data[0]], data[1..]);
    }
  }

  lemma GoodRecord(p: Padded)
    requires Writable(p) && GoodRec(p.rec)
    ensures Good(InHeader([]), PaddedBytes(p))
    ensures Run(InHeader([]), PaddedBytes(p)) == (InHeader([]), Tags(p.rec.rtype, p.rec.id, p.rec.payload))
  {
    var h := PaddedHeader(p);
    var head, body := HeaderBytes(h), p.rec.payload + p.pad;
    assert PaddedBytes(p) == head + body && [] + head == head && head + [] == head;
    HeaderRoundTrip(h, []);
    GoodHeaderBytes([], head);
    RunHeader([], head);
    GoodAppend(InHeader([]), head, body);
    RunAppend(InHeader([]), head, body);
    GoodContent(h, p.rec.payload);
    RunContent(h, p.rec.payload);
    GoodPadding(h.(contentLength := 0), [], p.pad);
    GoodAppend(Enter(h), p.rec.payload, p.pad);
    RunBody(h, p.rec.payload, p.pad);
    NothingPlus(Tags(p.rec.rtype, p.rec.id, p.rec.payload));
  }

  predicate AllGood(ps: seq<Padded>)
  {
    forall k :: 0 <= k < |ps| ==> GoodRec(ps[k].rec)
  }

  lemma {:induction false} GoodRecords(ps: seq<Padded>)
    requires AllWritable(ps) && AllGood(ps)
    ensures Good(InHeader([]), PaddedWire(ps))
    ensures Run(InHeader([]), PaddedWire(ps)) == (InHeader([]), RecTags(RecsIn(ps)))
  {
    if ps != [] {
      GoodRecord(ps[0]);
      GoodRecords(ps[1..]);
      GoodAppend(InHeader([]), PaddedBytes(ps[0]), PaddedWire(ps[1..]));
      RunAppend(InHeader([]), PaddedBytes(ps[0]), PaddedWire(ps[1..]));
      assert RecsIn(ps)[1..] == RecsIn(ps[1..]);
    }
  }

  /**
   * Records from the peer, padded as it likes and cut anywhere by the network: unless a cut goes through an end
   * record's body or brings its padding late, exactly their tagged bytes reach the requests, and the reader ends
   * idle with nothing unread.
   */
  lemma RecordsReachRequests(slots: Slab, ps: seq<Padded>, chunks: seq<bytes>)
    requires AllWritable(ps) && AllGood(ps) && Flatten(chunks) == PaddedWire(ps)
    ensures var d := Receive(slots, None, [], chunks);
            && (d.panicked <==> !SafeCuts(InHeader([]), chunks))
            && (!d.panicked ==>
                  && LookAll(d.slots) == DispatchTags(LookAll(slots), RecTags(RecsIn(ps)))
                  && d.saved == None && d.rest == [])
  {
    GoodRecords(ps);
    assert [] + Flatten(chunks) == Flatten(chunks);
    ReceivePanics(slots, None, [], chunks);
    ReceiveRefines(slots, None, [], chunks);
  }

  // ---------- a whole response ----------

  /** The request at x has received s. */
  function WithOutput(views: seq<Option<View>>, x: nat, s: bytes): seq<Option<View>>
    requires x < |views| && views[x].Some?
  {
    if s == [] then views
    else views[x := Some(views[x].value.(out := views[x].value.out + s, waker := false))]
  }

  lemma OutputInTwo(views: seq<Option<View>>, x: nat, a: bytes, b: bytes)
    requires x < |views| && views[x].Some?
    ensures var next := WithOutput(views, x, a);
            |next| == |views| && next[x].Some? && next[x].value.aborted == views[x].value.aborted
            && WithOutput(next, x, b) == WithOutput(views, x, a + b)
  {
    var v := views[x].value;
    assert v.out + a + b == v.out + (a + b);
    assert a == [] ==> a + b == b;
    assert b == [] ==> a + b == a;
  }

  /** The output among some records. */
  function OutputIn(recs: seq<Rec>): bytes
  {
    if recs == [] then [] else (if recs[0].rtype == StdOut then recs[0].payload else []) + OutputIn(recs[1..])
  }

  predicate OutputOf(id: u16, recs: seq<Rec>)
  {
    forall k :: 0 <= k < |recs| ==> (recs[k].rtype == StdOut || recs[k].rtype == StdErr) && recs[k].id == id
  }

  lemma OneOutput(views: seq<Option<View>>, id: u16, r: Rec)
    requires r.rtype == StdOut || r.rtype == StdErr
    requires r.id == id && 1 <= id <= |views| && views[id - 1].Some? && !views[id - 1].value.aborted
    ensures DispatchTags(views, Tags(r.rtype, id, r.payload))
         == WithOutput(views, id - 1, if r.rtype == StdOut then r.payload else [])
  {
    if r.rtype == StdOut {
      OutputTags(views, id, r.payload);
    } else {
      IgnoredTags(views, StdErr, id, r.payload);
    }
  }

  lemma {:induction false} OutputArrives(views: seq<Option<View>>, id: u16, recs: seq<Rec>)
    requires OutputOf(id, recs) && 1 <= id <= |views| && views[id - 1].Some? && !views[id - 1].value.aborted
    ensures DispatchTags(views, RecTags(recs)) == WithOutput(views, id - 1, OutputIn(recs))
    decreases |recs|
  {
    if recs != [] {
      var s := if recs[0].rtype == StdOut then recs[0].payload else [];
      OneOutput(views, id, recs[0]);
      OutputInTwo(views, id - 1, s, OutputIn(recs[1..]));
      OutputArrives(WithOutput(views, id - 1, s), id, recs[1..]);
      DispatchTagsAppend(views, Tags(recs[0].rtype, id, recs[0].payload), RecTags(recs[1..]));
    }
  }

  lemma EndOfRec(views: seq<Option<View>>, id: u16, payload: bytes)
    requires payload != []
    requires 1 <= id <= |views| && views[id - 1].Some? && !views[id - 1].value.aborted
    ensures DispatchTags(views, Tags(EndRequest, id, payload))
         == views[id - 1 := Some(views[id - 1].value.(ended := true, waker := false))]
  {
    var first, rest := [Tag(EndRequest, id, payload[0])], Tags(EndRequest, id, payload[1..]);
    assert Tags(EndRequest, id, payload) == first + rest;
    DispatchTagsAppend(views, first, rest);
    OneTag(views, Tag(EndRequest, id, payload[0]));
    EndTag(views, Tag(EndRequest, id, payload[0]));
    EndTagsAgain(DispatchTags(views, first), id, payload[1..]);
  }

  lemma EndTag(views: seq<Option<View>>, t: Tag)
    requires t.rtype == EndRequest
    requires 1 <= t.id <= |views| && views[t.id - 1].Some? && !views[t.id - 1].value.aborted
    ensures DispatchTag(views, t) == views[t.id - 1 := Some(views[t.id - 1].value.(ended := true, waker := false))]
  {}

  lemma OneTag(views: seq<Option<View>>, t: Tag)
    ensures DispatchTags(views, [t]) == DispatchTag(views, t)
  {
    var one := [t];
    assert one[0] == t && one[1..] == [];
  }

  lemma {:induction false} TagsOfBoth(a: seq<Rec>, b: seq<Rec>)
    ensures RecTags(a + b) == RecTags(a) + RecTags(b)
  {
    if a == [] {
      assert a + b == b;
    } else {
      assert (a + b)[1..] == a[1..] + b;
      TagsOfBoth(a[1..], b);
    }
  }

  lemma TagsOfOne(r: Rec)
    ensures RecTags([r]) == Tags(r.rtype, r.id, r.payload)
  {
    var one := [r];
    assert one[1..] == [] && RecTags(one[1..]) == [];
  }

  /** What output records and an end record do to the request they are for. */
  lemma ResponseTags(views: seq<Option<View>>, id: u16, out: seq<Rec>, end: Rec)
    requires OutputOf(id, out) && end.rtype == EndRequest && end.id == id && end.payload != []
    requires 1 <= id <= |views| && views[id - 1].Some? && !views[id - 1].value.aborted
    ensures DispatchTags(views, RecTags(out + [end]))
         == views[id - 1 := Some(View(views[id - 1].value.out + OutputIn(out), false, true, false))]
  {
    TagsOfBoth(out, [end]);
    TagsOfOne(end);
    DispatchTagsAppend(views, RecTags(out), Tags(EndRequest, id, end.payload));
    OutputArrives(views, id, out);
    EndBehindOutput(views, id, OutputIn(out), end.payload);
  }

  lemma EndBehindOutput(views: seq<Option<View>>, id: u16, s: bytes, payload: bytes)
    requires payload != []
    requires 1 <= id <= |views| && views[id - 1].Some? && !views[id - 1].value.aborted
    ensures DispatchTags(WithOutput(views, id - 1, s), Tags(EndRequest, id, payload))
         == views[id - 1 := Some(View(views[id - 1].value.out + s, false, true, false))]
  {
    OutputInTwo(views, id - 1, s, []);
    EndOfRec(WithOutput(views, id - 1, s), id, payload);
    assert s == [] ==> views[id - 1].value.out + s == views[id - 1].value.out;
  }

  /** A response: output and error records of one request, then its end record. */
  predicate IsResponse(id: u16, ps: seq<Padded>)
  {
    var n := |ps| - 1;
    && n >= 0 && AllWritable(ps) && AllGood(ps)
    && OutputOf(id, RecsIn(ps[..n])) && ps[n].rec.rtype == EndRequest && ps[n].rec.id == id
  }

  /**
   * A response arrives whole: however the peer divides and pads it and the network cuts it, short of cutting the end
   * record, the request has received exactly its output and its end, and no other request has noticed anything.
   */
  lemma ResponseArrives(slots: Slab, id: u16, ps: seq<Padded>, chunks: seq<bytes>)
    requires 1 <= id <= |slots| && slots[id - 1].Some? && !slots[id - 1].value.aborted
    requires IsResponse(id, ps) && Flatten(chunks) == PaddedWire(ps) && SafeCuts(InHeader([]), chunks)
    ensures var d := Receive(slots, None, [], chunks);
            var out := Flatten(slots[id - 1].value.buf) + OutputIn(RecsIn(ps[..|ps| - 1]));
            && !d.panicked && d.saved == None && d.rest == []
            && LookAll(d.slots) == LookAll(slots)[id - 1 := Some(View(out, false, true, false))]
  {
    RecordsReachRequests(slots, ps, chunks);
    TagsOfResponse(LookAll(slots), id, ps);
  }

  lemma TagsOfResponse(views: seq<Option<View>>, id: u16, ps: seq<Padded>)
    requires 1 <= id <= |views| && views[id - 1].Some? && !views[id - 1].value.aborted && IsResponse(id, ps)
    ensures var out := views[id - 1].value.out + OutputIn(RecsIn(ps[..|ps| - 1]));
            DispatchTags(views, RecTags(RecsIn(ps))) == views[id - 1 := Some(View(out, false, true, false))]
  {
    var n := |ps| - 1;
    assert RecsIn(ps) == RecsIn(ps[..n]) + [ps[n].rec];
    ResponseTags(views, id, RecsIn(ps[..n]), ps[n].rec);
  }

  // ---------- late padding ----------

  /** A padded end record, cut between its body and its padding: the late padding brings an empty end record. */
  lemma LatePaddingPanics(slots: Slab, id: u16)
    ensures var p := Padded(VERSION_1, EndRec(id, 0, 0), [0, 0, 0, 0, 0, 0, 0, 0]);
            var wire := PaddedBytes(p);
            && !Receive(slots, None, [], [wire]).panicked
            && Receive(slots, None, [], [wire[..16], wire[16..]]).panicked
  {
    var p := Padded(VERSION_1, EndRec(id, 0, 0), [0, 0, 0, 0, 0, 0, 0, 0]);
    var wire, h := PaddedBytes(p), PaddedHeader(p);
    GoodRecord(p);
    var whole, cut := [wire], [wire[..16], wire[16..]];
    assert wire == wire[..16] + wire[16..];
    FlattenOne(wire);
    FlattenTwo(wire[..16], wire[16..]);
    assert [] + wire == wire && whole[1..] == [] && cut[1..] == [wire[16..]];
    ReceivePanics(slots, None, [], whole);
    ReceivePanics(slots, None, [], cut);
    HeaderAndBody(p);
  }

  /** Behind header and body only the padding is owed. */
  lemma HeaderAndBody(p: Padded)
    requires Writable(p) && p.pad != [] && |p.rec.payload| == 8
    ensures Run(InHeader([]), PaddedBytes(p)[..16]).0 == InPadding(PaddedHeader(p).(contentLength := 0), [])
  {
    var h := PaddedHeader(p);
    var head := HeaderBytes(h);
    assert PaddedBytes(p)[..16] == head + p.rec.payload && [] + head == head && head + [] == head;
    HeaderRoundTrip(h, []);
    RunAppend(InHeader([]), head, p.rec.payload);
    RunHeader([], head);
    RunContent(h, p.rec.payload);
  }

  lemma FlattenOne(a: bytes)
    ensures Flatten([a]) == a
  {
    FlattenPush([], a);
    assert [] + [a] == [a];
  }

  lemma FlattenTwo(a: bytes, b: bytes)
    ensures Flatten([a, b]) == a + b
  {
    FlattenOne(a);
    FlattenPush([a], b);
    assert [a] + [b] == [a, b];
  }
}
