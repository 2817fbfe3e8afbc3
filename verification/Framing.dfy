/** How a byte stream is cut into records, stated on lists of records. */
module Framing {
  import opened Octets
  import opened Records
  import opened Reader
  import opened Automaton

  /** The write buffer: at most one record without padding, plus its header. */
  const BUF_LEN: nat := 0xFFFF - 7 + 8
  const BODY_LEN: nat := BUF_LEN - HEADER_LEN

  /** The full records that leave the write buffer once s has been appended ... */
  function FullRecs(t: RecordType, id: u16, s: bytes): (r: seq<Rec>)
    ensures Sized(r)
    decreases |s|
  {
    if |s| <= BODY_LEN then [] else [Rec(t, id, s[..BODY_LEN])] + FullRecs(t, id, s[BODY_LEN..])
  }

  /** ... and the bytes that stay in it. */
  function Rest(s: bytes): (r: bytes)
    ensures |r| <= BODY_LEN
    ensures s == [] <==> r == []
    decreases |s|
  {
    if |s| <= BODY_LEN then s else Rest(s[BODY_LEN..])
  }

  function LastRecs(t: RecordType, id: u16, p: bytes): (r: seq<Rec>)
    requires |p| <= BODY_LEN
    ensures Sized(r)
  {
    (if p == [] then [] else [Rec(t, id, p)]) + [Rec(t, id, [])]
  }

  /** A whole stream: what append_to_stream and end_stream write. */
  function StreamRecs(t: RecordType, id: u16, s: bytes): (r: seq<Rec>)
    ensures Sized(r)
  {
    FullRecs(t, id, s) + LastRecs(t, id, Rest(s))
  }

  /** What flush_data_chunk writes. */
  function FlushRecs(t: RecordType, id: u16, s: bytes): (r: seq<Rec>)
    ensures Sized(r)
  {
    FullRecs(t, id, s) + [Rec(t, id, Rest(s))]
  }

  /** Appending s and then t leaves the same records and the same rest as appending s + t. */
  lemma {:induction false} AppendTwice(t: RecordType, id: u16, s: bytes, more: bytes)
    ensures FullRecs(t, id, s + more) == FullRecs(t, id, s) + FullRecs(t, id, Rest(s) + more)
    ensures Rest(s + more) == Rest(Rest(s) + more)
    decreases |s|
  {
    if |s| > BODY_LEN {
      var first, tail := [Rec(t, id, s[..BODY_LEN])], s[BODY_LEN..];
      CutEarly(s, more);
      AppendTwice(t, id, tail, more);
      Associate(first, FullRecs(t, id, tail), FullRecs(t, id, Rest(tail) + more));
    } else {
      assert [] + FullRecs(t, id, s + more) == FullRecs(t, id, s + more);
    }
  }

  lemma CutEarly(s: bytes, more: bytes)
    requires |s| >= BODY_LEN
    ensures (s + more)[..BODY_LEN] == s[..BODY_LEN]
    ensures (s + more)[BODY_LEN..] == s[BODY_LEN..] + more
  {}

  /** A whole series of appends, starting with p pending. */
  function AppendAll(t: RecordType, id: u16, p: bytes, vals: seq<bytes>): (seq<Rec>, bytes)
    decreases |vals|
  {
    if vals == [] then ([], p)
    else
      var (rs, q) := AppendAll(t, id, Rest(p + vals[0]), vals[1..]);
      (FullRecs(t, id, p + vals[0]) + rs, q)
  }

  /**
   * Canonical framing: however a payload is divided among the appends, the wire is that of the whole payload.
   */
  lemma {:induction false} CanonicalFraming(t: RecordType, id: u16, p: bytes, vals: seq<bytes>)
    requires |p| <= BODY_LEN
    ensures AppendAll(t, id, p, vals) == (FullRecs(t, id, p + Flatten(vals)), Rest(p + Flatten(vals)))
    decreases |vals|
  {
    if vals == [] {
      assert p + [] == p;
    } else {
      var s := p + vals[0];
      CanonicalFraming(t, id, Rest(s), vals[1..]);
      AppendTwice(t, id, s, Flatten(vals[1..]));
      assert s + Flatten(vals[1..]) == p + Flatten(vals);
    }
  }

  /**
   * The shape of a stream, without reference to how it is written: records of one type and ID carrying s, all
   * nonempty except an empty last one, all of the full length except the last two.
   */
  predicate IsStream(t: RecordType, id: u16, s: bytes, recs: seq<Rec>)
  {
    var n := |recs|;
    && n > 0
    && recs[n - 1].payload == []
    && (forall k :: 0 <= k < n ==> recs[k].rtype == t && recs[k].id == id)
    && (forall k :: 0 <= k < n - 1 ==> 0 < |recs[k].payload| <= 65528)
    && (forall k :: 0 <= k < n - 2 ==> |recs[k].payload| == 65528)
    && Payloads(recs) == s
  }

  lemma StreamCons(t: RecordType, id: u16, first: bytes, s: bytes, tail: seq<Rec>)
    requires |first| == BODY_LEN && s != [] && IsStream(t, id, s, tail)
    ensures IsStream(t, id, first + s, [Rec(t, id, first)] + tail)
  {
    var recs := [Rec(t, id, first)] + tail;
    assert recs[1..] == tail;
    assert |tail| == 1 ==> tail[1..] == [];
    assert forall k :: 1 <= k < |recs| ==> recs[k] == tail[k - 1];
  }

  lemma ShortStream(t: RecordType, id: u16, s: bytes)
    requires |s| <= BODY_LEN
    ensures IsStream(t, id, s, LastRecs(t, id, s))
  {
    var last := Rec(t, id, []);
    assert [last][1..] == [] && Payloads([last]) == [];
    if s != [] {
      assert [Rec(t, id, s), last][1..] == [last] && s + [] == s;
    }
  }

  lemma {:induction false} FramedStream(t: RecordType, id: u16, s: bytes)
    ensures IsStream(t, id, s, StreamRecs(t, id, s))
    decreases |s|
  {
    if |s| <= BODY_LEN {
      ShortStream(t, id, s);
      assert StreamRecs(t, id, s) == LastRecs(t, id, s);
    } else {
      var first, tail := s[..BODY_LEN], s[BODY_LEN..];
      FramedStream(t, id, tail);
      StreamCons(t, id, first, tail, StreamRecs(t, id, tail));
      assert s == first + tail;
      assert StreamRecs(t, id, s) == [Rec(t, id, first)] + StreamRecs(t, id, tail);
    }
  }

  lemma {:induction false} FullCarries(t: RecordType, id: u16, s: bytes)
    ensures forall k :: 0 <= k < |FullRecs(t, id, s)| ==>
              var r := FullRecs(t, id, s)[k]; r.rtype == t && r.id == id && |r.payload| == BODY_LEN
    ensures Payloads(FullRecs(t, id, s)) + Rest(s) == s
    decreases |s|
  {
    if |s| > BODY_LEN {
      FullCarries(t, id, s[BODY_LEN..]);
      assert FullRecs(t, id, s)[1..] == FullRecs(t, id, s[BODY_LEN..]);
      assert s == s[..BODY_LEN] + s[BODY_LEN..];
      Associate(s[..BODY_LEN], Payloads(FullRecs(t, id, s[BODY_LEN..])), Rest(s));
    }
  }

  lemma PayloadsOne(r: Rec)
    ensures Payloads([r]) == r.payload
  {
    var one := [r];
    assert one[1..] == [] && Payloads(one) == r.payload + Payloads(one[1..]);
  }

  /** That shape determines the records: there is exactly one way to frame a payload. */
  lemma {:induction false} StreamUnique(t: RecordType, id: u16, s: bytes, recs: seq<Rec>)
    ensures IsStream(t, id, s, recs) <==> recs == StreamRecs(t, id, s)
    decreases |s|
  {
    FramedStream(t, id, s);
    if IsStream(t, id, s, recs) {
      var first, tail := recs[0], recs[1..];
      assert recs == [first] + tail;
      if |recs| <= 2 {
        ShortUnique(t, id, s, recs);
      } else {
        assert Payloads(tail) == tail[0].payload + Payloads(tail[1..]);
        assert s[..BODY_LEN] == first.payload && s[BODY_LEN..] == Payloads(tail);
        StreamUnique(t, id, s[BODY_LEN..], tail);
      }
    }
  }

  lemma ShortUnique(t: RecordType, id: u16, s: bytes, recs: seq<Rec>)
    requires |recs| <= 2 && IsStream(t, id, s, recs)
    ensures recs == StreamRecs(t, id, s)
  {
    var first, end := recs[0], Rec(t, id, []);
    PayloadsOne(first);
    PayloadsOne(end);
    if |recs| == 1 {
      assert recs == [end] && [] + [end] == [end];
    } else {
      assert recs == [first] + [end] && recs[1..] == [end];
      assert Payloads(recs) == first.payload + Payloads([end]) == first.payload;
      assert [] + ([first] + [end]) == recs;
    }
  }

  /**
   * The two framers agree byte for byte, padding included: one whole stream is the flushed data, unless there is
   * none, and a flushed empty chunk.
   */
  lemma FramersAgree(t: RecordType, id: u16, s: bytes)
    ensures WireBytes(StreamRecs(t, id, s))
         == (if s == [] then [] else WireBytes(FlushRecs(t, id, s))) + WireBytes(FlushRecs(t, id, []))
  {
    var end := [Rec(t, id, [])];
    assert FlushRecs(t, id, []) == end;
    var w := WireBytes(end);
    assert [] + w == w;
    if s == [] {
      assert StreamRecs(t, id, s) == end;
    } else {
      var full, last := FullRecs(t, id, s), [Rec(t, id, Rest(s))];
      assert full + (last + end) == (full + last) + end;
      WireAppend(FlushRecs(t, id, s), end);
    }
  }

  /** A flushed nonempty chunk carries the chunk in nonempty records: it never looks like the end of a stream. */
  lemma {:induction false} FlushCarries(t: RecordType, id: u16, s: bytes)
    requires s != []
    ensures Payloads(FlushRecs(t, id, s)) == s
    ensures forall r :: r in FlushRecs(t, id, s) ==> r.rtype == t && r.id == id && r.payload != []
    decreases |s|
  {
    var recs := FlushRecs(t, id, s);
    if |s| <= BODY_LEN {
      assert recs == [Rec(t, id, s)];
      assert recs[1..] == [];
    } else {
      var tail := FlushRecs(t, id, s[BODY_LEN..]);
      FlushCarries(t, id, s[BODY_LEN..]);
      assert recs == [Rec(t, id, s[..BODY_LEN])] + tail && recs[1..] == tail;
      assert s == s[..BODY_LEN] + s[BODY_LEN..];
      forall r | r in recs ensures r.rtype == t && r.id == id && r.payload != [] {
        if r !in tail { assert r == Rec(t, id, s[..BODY_LEN]); }
      }
    }
  }

  // ---------- the receiving side ----------

  function AsFragment(r: Rec): Fragment
    requires |r.payload| <= MAX_LENGTH
  {
    Fragment(RecHeader(r), r.payload)
  }

  function AsRec(f: Fragment): Rec
  {
    Rec(f.header.rtype, f.header.requestId, f.content)
  }

  function AsRecs(fs: seq<Fragment>): (r: seq<Rec>)
    ensures |r| == |fs|
  {
    seq(|fs|, k requires 0 <= k < |fs| => AsRec(fs[k]))
  }

  /** The records a peer sees when it parses whole records. */
  function Deframe(data: bytes): seq<Rec>
  {
    AsRecs(WholeRecords(data).0)
  }

  lemma WholeRecordOf(r: Rec, rest: bytes)
    requires |r.payload| <= MAX_LENGTH
    ensures WholeRecord(RecBytes(r) + rest) == Some((AsFragment(r), rest))
  {
    var h := RecHeader(r);
    var pad := HeaderBytes(h)[..h.paddingLength];
    var data := RecBytes(r) + rest;
    assert data == HeaderBytes(h) + (r.payload + pad + rest);
    HeaderRoundTrip(h, r.payload + pad + rest);
    assert data[HEADER_LEN..HEADER_LEN + h.contentLength] == r.payload;
    assert data[HEADER_LEN + h.contentLength + h.paddingLength..] == rest;
  }

  lemma DeframeNext(r: Rec, tail: bytes)
    requires |r.payload| <= MAX_LENGTH
    ensures Deframe(RecBytes(r) + tail) == [r] + Deframe(tail)
    ensures WholeRecords(RecBytes(r) + tail).1 == WholeRecords(tail).1
  {
    WholeRecordOf(r, tail);
    var fs := WholeRecords(tail).0;
    assert WholeRecords(RecBytes(r) + tail).0 == [AsFragment(r)] + fs;
    assert AsRecs([AsFragment(r)] + fs) == [r] + AsRecs(fs);
  }

  /** Records are parsed back as they were written, and then comes whatever follows them. */
  lemma {:induction false} DeframeThen(recs: seq<Rec>, tail: bytes)
    requires Sized(recs)
    ensures Deframe(WireBytes(recs) + tail) == recs + Deframe(tail)
    ensures WholeRecords(WireBytes(recs) + tail).1 == WholeRecords(tail).1
  {
    if recs == [] {
      assert [] + tail == tail && [] + Deframe(tail) == Deframe(tail);
    } else {
      var next := WireBytes(recs[1..]);
      Associate(RecBytes(recs[0]), next, tail);
      DeframeThen(recs[1..], tail);
      DeframeStep(recs, next + tail, Deframe(tail));
    }
  }

  lemma DeframeStep(recs: seq<Rec>, next: bytes, more: seq<Rec>)
    requires recs != [] && |recs[0].payload| <= MAX_LENGTH && Deframe(next) == recs[1..] + more
    ensures Deframe(RecBytes(recs[0]) + next) == recs + more
    ensures WholeRecords(RecBytes(recs[0]) + next).1 == WholeRecords(next).1
  {
    DeframeNext(recs[0], next);
    FirstOf(recs, more);
  }

  lemma FirstOf(recs: seq<Rec>, more: seq<Rec>)
    requires recs != []
    ensures [recs[0]] + (recs[1..] + more) == recs + more
  {}

  /** Whatever is written as records is parsed back as exactly those records, and nothing remains. */
  lemma DeframeWire(recs: seq<Rec>)
    requires Sized(recs)
    ensures Deframe(WireBytes(recs)) == recs && WholeRecords(WireBytes(recs)).1 == []
  {
    DeframeThen(recs, []);
    assert WireBytes(recs) + [] == WireBytes(recs) && recs + [] == recs;
  }

  /** A part of a record is no record. */
  lemma DeframeTorn(r: Rec, part: bytes)
    requires |r.payload| <= MAX_LENGTH && part < RecBytes(r)
    ensures Deframe(part) == []
  {
    if |part| >= HEADER_LEN {
      HeaderRoundTrip(RecHeader(r), []);
      ParseHeaderPrefix(part);
      assert part[..HEADER_LEN] == HeaderBytes(RecHeader(r)) + [];
    }
  }

  /** The bytes that a receiver gathers for one stream out of everything it is told. */
  function Gathered(t: RecordType, id: u16, tags: seq<Tag>): bytes
  {
    if tags == [] then []
    else (if tags[0].rtype == t && tags[0].id == id then [tags[0].b] else []) + Gathered(t, id, tags[1..])
  }

  lemma {:induction false} GatheredAppend(t: RecordType, id: u16, a: seq<Tag>, b: seq<Tag>)
    ensures Gathered(t, id, a + b) == Gathered(t, id, a) + Gathered(t, id, b)
  {
    if a == [] {
      assert a + b == b;
    } else {
      assert (a + b)[1..] == a[1..] + b;
      GatheredAppend(t, id, a[1..], b);
    }
  }

  lemma {:induction false} GatheredTags(t: RecordType, id: u16, t2: RecordType, id2: u16, s: bytes)
    ensures Gathered(t, id, Tags(t2, id2, s)) == if t == t2 && id == id2 then s else []
    decreases |s|
  {
    if s != [] {
      assert Tags(t2, id2, s)[1..] == Tags(t2, id2, s[1..]);
      GatheredTags(t, id, t2, id2, s[1..]);
    }
  }

  lemma {:induction false} GatheredRecs(t: RecordType, id: u16, recs: seq<Rec>)
    requires forall k :: 0 <= k < |recs| ==> recs[k].rtype == t && recs[k].id == id
    ensures Gathered(t, id, RecTags(recs)) == Payloads(recs)
  {
    if recs != [] {
      GatheredAppend(t, id, Tags(t, id, recs[0].payload), RecTags(recs[1..]));
      GatheredTags(t, id, t, id, recs[0].payload);
      GatheredRecs(t, id, recs[1..]);
    }
  }

  /**
   * Writer and reader round trip: a payload framed by the writer and cut into any chunks reaches the reader of
   * that stream as exactly the payload, and the reader ends idle with no byte unread.
   */
  lemma StreamRoundTrip(t: RecordType, id: u16, payload: bytes, chunks: seq<bytes>)
    requires Flatten(chunks) == WireBytes(StreamRecs(t, id, payload))
    ensures var d := Feed(None, [], chunks);
            && !d.malformed && d.saved == None && d.rest == []
            && Gathered(t, id, Observed(d.frags)) == payload
            && |Observed(d.frags)| == |payload|
  {
    var recs := StreamRecs(t, id, payload);
    RecordsSurviveCutting(recs, chunks);
    FramedStream(t, id, payload);
    GatheredRecs(t, id, recs);
    CountTags(recs);
  }

  lemma {:induction false} CountTags(recs: seq<Rec>)
    ensures |RecTags(recs)| == |Payloads(recs)|
  {
    if recs != [] {
      CountTags(recs[1..]);
    }
  }
}
