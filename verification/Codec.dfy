/** The record writer: buffering, framing and padding over a transport that takes any prefix at a time. */
module Codec {
  import opened Octets
  import opened Records
  import opened Reader
  import opened Framing
  import opened NameValue

  /** The wire grew by a prefix of t, and by all of it exactly on success. */
  predicate Wrote(before: bytes, after: bytes, t: bytes, ok: bool)
  {
    before <= after && after <= before + t && (ok <==> after == before + t)
  }

  lemma WroteThen(w0: bytes, w1: bytes, w2: bytes, a: bytes, b: bytes, ok: bool)
    requires w1 == w0 + a && Wrote(w1, w2, b, ok)
    ensures Wrote(w0, w2, a + b, ok)
  {
    assert w0 + a + b == w0 + (a + b);
  }

  lemma WroteShort(w0: bytes, w1: bytes, a: bytes, b: bytes)
    requires Wrote(w0, w1, a, false)
    ensures Wrote(w0, w1, a + b, false)
  {
    assert w0 + a + b == w0 + (a + b);
  }

  /** The records done are on the wire; target is those, then the pending full ones, then last. */
  predicate Cutting(w0: bytes, w: bytes, done: seq<Rec>, pending: seq<Rec>, last: seq<Rec>, target: seq<Rec>)
  {
    Sized(done) && w == w0 + WireBytes(done) && target == done + pending + last
  }

  lemma WroteMore(w0: bytes, before: bytes, w: bytes, done: seq<Rec>, r: seq<Rec>, rest: seq<Rec>, ok: bool)
    requires Sized(done) && Sized(r) && Sized(rest)
    requires before == w0 + WireBytes(done) && Wrote(before, w, WireBytes(r), ok)
    ensures Sized(done + r + rest)
    ensures if ok then w == w0 + WireBytes(done + r) else Wrote(w0, w, WireBytes(done + r + rest), false)
  {
    WireAppend(done, r);
    WireAppend(done + r, rest);
    WroteThen(w0, before, w, WireBytes(done), WireBytes(r), ok);
    if !ok {
      WroteShort(w0, w, WireBytes(done + r), WireBytes(rest));
    }
  }

  lemma CutStep(w0: bytes, before: bytes, w: bytes, done: seq<Rec>, t: RecordType, id: u16, pending: bytes,
                last: seq<Rec>, target: seq<Rec>, ok: bool)
    requires |pending| > BODY_LEN && Sized(target) && Sized(last)
    requires Cutting(w0, before, done, FullRecs(t, id, pending), last, target)
    requires Wrote(before, w, WireBytes([Rec(t, id, pending[..BODY_LEN])]), ok)
    ensures !ok ==> Wrote(w0, w, WireBytes(target), false)
    ensures ok ==> Cutting(w0, w, done + [Rec(t, id, pending[..BODY_LEN])], FullRecs(t, id, pending[BODY_LEN..]),
                           last, target)
  {
    var r, rest := [Rec(t, id, pending[..BODY_LEN])], FullRecs(t, id, pending[BODY_LEN..]);
    assert FullRecs(t, id, pending) == r + rest;
    BetweenTwo(done, r, rest, last);
    WroteMore(w0, before, w, done, r, rest + last, ok);
  }

  lemma BetweenTwo(a: seq<Rec>, b: seq<Rec>, c: seq<Rec>, d: seq<Rec>)
    ensures a + (b + c) + d == (a + b) + c + d == (a + b) + (c + d)
  {}

  function Total(body: seq<Option<bytes>>): bytes
  {
    if body == [] then []
    else (match body[0] case None => [] case Some(s) => s) + Total(body[1..])
  }

  lemma {:induction false} TotalAppend(a: seq<Option<bytes>>, b: seq<Option<bytes>>)
    ensures Total(a + b) == Total(a) + Total(b)
  {
    if a == [] {
      assert a + b == b;
    } else {
      assert (a + b)[1..] == a[1..] + b;
      TotalAppend(a[1..], b);
    }
  }

  function AbortRec(id: u16): Rec
  {
    Rec(AbortRequest, id, [])
  }

  /** A request starts with role and flags; five reserved bytes follow. */
  function BeginRec(id: u16, role: u16, flags: byte): Rec
  {
    Rec(BeginRequest, id, PutU16(role) + [flags, 0, 0, 0, 0, 0])
  }

  function EndRec(id: u16, appStatus: u32, protoStatus: byte): Rec
  {
    Rec(EndRequest, id, PutU32(appStatus) + [protoStatus, 0, 0, 0])
  }

  /** A begin record: ten bytes of header and role, the flags, and five zeros. */
  lemma BeginInNumbers(id: u16, role: u16, flags: byte)
    ensures RecBytes(BeginRec(id, role, flags))
         == [1, 1, id / 256, id % 256, 0, 8, 0, 0, role / 256, role % 256, flags, 0, 0, 0, 0, 0]
  {}

  lemma AbortInNumbers(id: u16)
    ensures RecBytes(AbortRec(id)) == [1, 2, id / 256, id % 256, 0, 0, 0, 0]
  {}

  lemma EndInNumbers(id: u16, app: u32, proto: byte)
    ensures RecBytes(EndRec(id, app, proto))
         == [1, 3, id / 256, id % 256, 0, 8, 0, 0,
             app / 0x100_0000, app / 0x1_0000 % 256, app / 0x100 % 256, app % 256, proto, 0, 0, 0]
  {
    FourBytes(app);
  }

  lemma OneOnWire(r: Rec)
    requires |r.payload| <= MAX_LENGTH
    ensures WireBytes([r]) == RecBytes(r)
  {
    var one := [r];
    assert one[1..] == [] && WireBytes(one) == RecBytes(one[0]) + WireBytes(one[1..]);
  }

  function BodyEnd(t: RecordType, id: u16, p: bytes, short: bool): (r: seq<Rec>)
    requires |p| <= BODY_LEN
    ensures Sized(r)
  {
    if short then [AbortRec(id)] else LastRecs(t, id, p)
  }

  /** What is written of a body announced as len bytes long: a short one is aborted and not ended. */
  function BodyRecs(t: RecordType, id: u16, body: bytes, len: nat): (r: seq<Rec>)
    ensures Sized(r)
  {
    FullRecs(t, id, body) + BodyEnd(t, id, Rest(body), len > |body|)
  }

  datatype StreamResult = Sent | IoError | TooShort

  class FCGIWriter {
    /** Every byte the transport has taken. */
    var wire: bytes

    constructor ()
      ensures wire == []
    {
      wire := [];
    }

    /** The transport takes some nonempty prefix, or fails and takes nothing. */
    method WriteBuf(buf: bytes) returns (n: nat, ok: bool)
      requires buf != []
      modifies this
      ensures ok ==> 1 <= n <= |buf| && wire == old(wire) + buf[..n]
      ensures !ok ==> wire == old(wire)
    {
      ok := *;
      n := *;
      if !(1 <= n <= |buf|) {
        n := |buf|;
      }
      if ok {
        wire := wire + buf[..n];
      }
    }

    method WriteWholeBuf(buf: bytes) returns (ok: bool)
      modifies this
      ensures Wrote(old(wire), wire, buf, ok)
    {
      var left := buf;
      ghost var done := [];
      while left != []
        invariant buf == done + left && wire == old(wire) + done
        decreases |left|
      {
        var n;
        n, ok := WriteBuf(left);
        if !ok {
          assert old(wire) + buf == wire + left;
          return false;
        }
        assert left == left[..n] + left[n..];
        done := done + left[..n];
        left := left[n..];
      }
      return true;
    }

    /** One full record, whose bytes lie in two buffers. */
    method WriteFull(first: bytes, second: bytes, ghost r: Rec) returns (ok: bool)
      requires |r.payload| == BODY_LEN
      requires first + second == HeaderBytes(NewHeader(r.rtype, r.id, BODY_LEN)) + r.payload
      modifies this
      ensures Wrote(old(wire), wire, WireBytes([r]), ok)
    {
      assert WireBytes([r]) == first + second;
      ok := WriteWholeBuf(first);
      if !ok {
        WroteShort(old(wire), wire, first, second);
        return;
      }
      ok := WriteWholeBuf(second);
      WroteThen(old(wire), old(wire) + first, wire, first, second, ok);
    }

    /** A record that is a header and at most eight more bytes. */
    method WriteSmall(r: Rec) returns (ok: bool)
      requires |r.payload| % 8 == 0 && |r.payload| <= 8
      modifies this
      ensures Wrote(old(wire), wire, WireBytes([r]), ok)
    {
      assert WireBytes([r]) == HeaderBytes(RecHeader(r)) + r.payload;
      ok := WriteWholeBuf(HeaderBytes(NewHeader(r.rtype, r.id, |r.payload|)) + r.payload);
    }

    method EncodeBegin(id: u16, role: u16, flags: byte) returns (ok: bool)
      modifies this
      ensures Wrote(old(wire), wire, WireBytes([BeginRec(id, role, flags)]), ok)
      ensures Wrote(old(wire), wire,
                    [1, 1, id / 256, id % 256, 0, 8, 0, 0, role / 256, role % 256, flags, 0, 0, 0, 0, 0], ok)
    {
      BeginInNumbers(id, role, flags);
      OneOnWire(BeginRec(id, role, flags));
      ok := WriteSmall(BeginRec(id, role, flags));
    }

    method EncodeAbort(id: u16) returns (ok: bool)
      modifies this
      ensures Wrote(old(wire), wire, WireBytes([AbortRec(id)]), ok)
      ensures Wrote(old(wire), wire, [1, 2, id / 256, id % 256, 0, 0, 0, 0], ok)
    {
      AbortInNumbers(id);
      OneOnWire(AbortRec(id));
      ok := WriteSmall(AbortRec(id));
    }

    method EncodeEnd(id: u16, appStatus: u32, protoStatus: byte) returns (ok: bool)
      modifies this
      ensures Wrote(old(wire), wire, WireBytes([EndRec(id, appStatus, protoStatus)]), ok)
      ensures Wrote(old(wire), wire,
                    [1, 3, id / 256, id % 256, 0, 8, 0, 0, appStatus / 0x100_0000, appStatus / 0x1_0000 % 256,
                     appStatus / 0x100 % 256, appStatus % 256, protoStatus, 0, 0, 0], ok)
    {
      EndInNumbers(id, appStatus, protoStatus);
      OneOnWire(EndRec(id, appStatus, protoStatus));
      ok := WriteSmall(EndRec(id, appStatus, protoStatus));
    }

    /** A cleared buffer: the header slot holds arbitrary bytes until it is patched. */
    method Reserve() returns (buf: bytes)
      ensures |buf| == HEADER_LEN
    {
      buf := seq(HEADER_LEN, k => 0);
    }

    /** The first full record of what is pending in kept and left. */
    method WriteNext(kept: bytes, left: bytes, id: u16, t: RecordType) returns (ok: bool, rest: bytes)
      requires HEADER_LEN <= |kept| <= BUF_LEN < |kept| + |left|
      modifies this
      ensures var pending := kept[HEADER_LEN..] + left;
              && Wrote(old(wire), wire, WireBytes([Rec(t, id, pending[..BODY_LEN])]), ok)
              && rest == pending[BODY_LEN..] && |rest| < |kept| + |left| - HEADER_LEN
    {
      ghost var pending := kept[HEADER_LEN..] + left;
      var n := BUF_LEN - |kept|;
      var first := HeaderBytes(NewHeader(t, id, BODY_LEN)) + kept[HEADER_LEN..];
      assert first + left[..n] == HeaderBytes(NewHeader(t, id, BODY_LEN)) + pending[..BODY_LEN];
      ok := WriteFull(first, left[..n], Rec(t, id, pending[..BODY_LEN]));
      rest := left[n..];
      assert rest == pending[BODY_LEN..];
    }

    /** Appends val to the stream, writing full records and keeping the rest behind the header slot of buf. */
    method AppendToStream(val: bytes, buf: bytes, id: u16, t: RecordType) returns (ok: bool, kept: bytes)
      requires HEADER_LEN <= |buf| <= BUF_LEN
      modifies this
      ensures Wrote(old(wire), wire, WireBytes(FullRecs(t, id, buf[HEADER_LEN..] + val)), ok)
      ensures ok ==> |kept| >= HEADER_LEN && kept[HEADER_LEN..] == Rest(buf[HEADER_LEN..] + val)
    {
      ghost var pending := buf[HEADER_LEN..] + val;
      ghost var target, end := FullRecs(t, id, pending), Rest(pending);
      ghost var done := [];
      kept := buf;
      var left := val;
      ok := true;
      while |kept| + |left| > BUF_LEN
        invariant HEADER_LEN <= |kept| <= BUF_LEN && pending == kept[HEADER_LEN..] + left
        invariant Cutting(old(wire), wire, done, FullRecs(t, id, pending), [], target)
        invariant end == Rest(pending)
        invariant ok
        decreases |kept| + |left|
      {
        ghost var before := wire;
        ok, left := WriteNext(kept, left, id, t);
        CutStep(old(wire), before, wire, done, t, id, pending, [], target, ok);
        if !ok {
          return;
        }
        done := done + [Rec(t, id, pending[..BODY_LEN])];
        pending := pending[BODY_LEN..];
        kept := Reserve();
        assert kept[HEADER_LEN..] == [] && [] + left == left;
      }
      assert done + [] + [] == done;
      kept := kept + left;
      assert kept[HEADER_LEN..] == pending;
    }

    /** Writes what is buffered, padded, and the empty record that ends the stream. */
    method EndStream(buf: bytes, id: u16, t: RecordType) returns (ok: bool)
      requires HEADER_LEN <= |buf| <= BUF_LEN
      modifies this
      ensures Wrote(old(wire), wire, WireBytes(LastRecs(t, id, buf[HEADER_LEN..])), ok)
    {
      ghost var p := buf[HEADER_LEN..];
      ghost var end := [Rec(t, id, [])];
      if |buf| - HEADER_LEN > 0 {
        assert LastRecs(t, id, p) == [Rec(t, id, p)] + end;
        WireAppend([Rec(t, id, p)], end);
        ok := WritePatched(buf, id, t);
        if !ok {
          WroteShort(old(wire), wire, WireBytes([Rec(t, id, p)]), WireBytes(end));
          return;
        }
        ghost var middle := wire;
        ok := WriteSmall(Rec(t, id, []));
        WroteThen(old(wire), middle, wire, WireBytes([Rec(t, id, p)]), WireBytes(end), ok);
      } else {
        ok := WriteSmall(Rec(t, id, []));
      }
    }

    /** The last buffered record: the header goes into its slot, and the padding repeats the buffer's start. */
    method WritePatched(buf: bytes, id: u16, t: RecordType) returns (ok: bool)
      requires HEADER_LEN < |buf| <= BUF_LEN
      modifies this
      ensures Wrote(old(wire), wire, WireBytes([Rec(t, id, buf[HEADER_LEN..])]), ok)
    {
      var lastHead := NewHeader(t, id, |buf| - HEADER_LEN);
      var whole := HeaderBytes(lastHead) + buf[HEADER_LEN..];
      var pad := whole[..lastHead.paddingLength];
      assert pad == HeaderBytes(lastHead)[..lastHead.paddingLength];
      assert WireBytes([Rec(t, id, buf[HEADER_LEN..])]) == whole + pad;
      ok := WriteWholeBuf(whole);
      if !ok {
        WroteShort(old(wire), wire, whole, pad);
        return;
      }
      ok := WriteWholeBuf(pad);
      WroteThen(old(wire), old(wire) + whole, wire, whole, pad, ok);
    }

    /** One whole stream. */
    method EncodeData(id: u16, t: RecordType, data: bytes) returns (ok: bool)
      modifies this
      ensures Wrote(old(wire), wire, WireBytes(StreamRecs(t, id, data)), ok)
    {
      ghost var full, last := FullRecs(t, id, data), LastRecs(t, id, Rest(data));
      WireAppend(full, last);
      var buf := Reserve();
      assert buf[HEADER_LEN..] + data == data;
      ok, buf := AppendToStream(data, buf, id, t);
      if !ok {
        WroteShort(old(wire), wire, WireBytes(full), WireBytes(last));
        return;
      }
      ok := EndStream(buf, id, t);
      WroteThen(old(wire), old(wire) + WireBytes(full), wire, WireBytes(full), WireBytes(last), ok);
    }

    /** A body given in chunks, of which some may be errors: those are skipped. */
    method DataStream(body: seq<Option<bytes>>, id: u16, t: RecordType, announced: nat) returns (r: StreamResult)
      modifies this
      ensures Wrote(old(wire), wire, WireBytes(BodyRecs(t, id, Total(body), announced)), r != IoError)
      ensures r != IoError ==> (r == TooShort <==> announced > |Total(body)|)
    {
      var len := announced;
      var buf := Reserve();
      var ok;
      for i := 0 to |body|
        invariant HEADER_LEN <= |buf| <= BUF_LEN
        invariant wire == old(wire) + WireBytes(FullRecs(t, id, Total(body[..i])))
        invariant buf[HEADER_LEN..] == Rest(Total(body[..i]))
        invariant len == if announced > |Total(body[..i])| then announced - |Total(body[..i])| else 0
      {
        BodyChunk(t, id, body, i);
        if body[i].Some? {
          var val := body[i].value;
          len := if len > |val| then len - |val| else 0;
          ghost var before := wire;
          ok, buf := AppendToStream(val, buf, id, t);
          BodyStep(t, id, body, i, announced, old(wire), before, wire, ok);
          if !ok {
            return IoError;
          }
        }
      }
      assert body[..|body|] == body;
      r := FinishBody(buf, id, t, len);
      BodyFinished(t, id, Total(body), announced, old(wire), wire, r != IoError);
    }

    /** The end of a body: an abort when bytes are missing, the rest and the end record otherwise. */
    method FinishBody(buf: bytes, id: u16, t: RecordType, len: nat) returns (r: StreamResult)
      requires HEADER_LEN <= |buf| <= BUF_LEN
      modifies this
      ensures Wrote(old(wire), wire, WireBytes(BodyEnd(t, id, buf[HEADER_LEN..], len > 0)), r != IoError)
      ensures r != IoError ==> (r == TooShort <==> len > 0)
    {
      var ok;
      if len > 0 {
        ok := EncodeAbort(id);
        return if ok then TooShort else IoError;
      }
      ok := EndStream(buf, id, t);
      return if ok then Sent else IoError;
    }

    /** One chunk of a stream that stays open. */
    method FlushDataChunk(data: bytes, id: u16, t: RecordType) returns (ok: bool)
      modifies this
      ensures Wrote(old(wire), wire, WireBytes(FlushRecs(t, id, data)), ok)
    {
      ghost var last := [Rec(t, id, Rest(data))];
      ghost var done := [];
      var left := data;
      while |left| > BUF_LEN - HEADER_LEN
        invariant Cutting(old(wire), wire, done, FullRecs(t, id, left), last, FlushRecs(t, id, data))
        invariant Rest(data) == Rest(left)
        decreases |left|
      {
        ghost var before := wire;
        var header := HeaderBytes(NewHeader(t, id, BUF_LEN - HEADER_LEN));
        ok := WriteFull(header, left[..BUF_LEN - HEADER_LEN], Rec(t, id, left[..BODY_LEN]));
        CutStep(old(wire), before, wire, done, t, id, left, last, FlushRecs(t, id, data), ok);
        if !ok {
          return;
        }
        done := done + [Rec(t, id, left[..BODY_LEN])];
        left := left[BUF_LEN - HEADER_LEN..];
      }
      WireAppend(done, last);
      assert done + [] + last == done + last;
      ok := WriteLast(left, id, t);
      WroteThen(old(wire), old(wire) + WireBytes(done), wire, WireBytes(done), WireBytes(last), ok);
    }

    /** The last record of a chunk: header, data and padding taken from the header. */
    method WriteLast(data: bytes, id: u16, t: RecordType) returns (ok: bool)
      requires |data| <= BODY_LEN
      modifies this
      ensures Wrote(old(wire), wire, WireBytes([Rec(t, id, data)]), ok)
    {
      var lastHead := NewHeader(t, id, |data|);
      var header := HeaderBytes(lastHead);
      var pad := header[..lastHead.paddingLength];
      assert WireBytes([Rec(t, id, data)]) == header + data + pad;
      if |data| == 0 {
        ok := WriteWholeBuf(header);
        return;
      }
      ok := WriteWholeBuf(header);
      if !ok {
        WroteShort(old(wire), wire, header, data + pad);
        assert header + (data + pad) == header + data + pad;
        return;
      }
      ok := WriteWholeBuf(data);
      WroteThen(old(wire), old(wire) + header, wire, header, data, ok);
      if !ok {
        WroteShort(old(wire), wire, header + data, pad);
        return;
      }
      ok := WriteWholeBuf(pad);
      WroteThen(old(wire), old(wire) + (header + data), wire, header + data, pad, ok);
    }

    method EncodeKvp(id: u16, t: RecordType, ps: seq<Pair>) returns (ok: bool)
      requires AllEncodable(ps)
      modifies this
      ensures Wrote(old(wire), wire, WireBytes(StreamRecs(t, id, EncodePairs(ps))), ok)
    {
      var kvps := new NameValuePairWriter(this, id, t);
      assert kvps.buf[HEADER_LEN..] + EncodePairs(ps) == EncodePairs(ps);
      ok := kvps.Extend(ps);
      ghost var full, last := FullRecs(t, id, EncodePairs(ps)), LastRecs(t, id, Rest(EncodePairs(ps)));
      WireAppend(full, last);
      if !ok {
        WroteShort(old(wire), wire, WireBytes(full), WireBytes(last));
        return;
      }
      ok := kvps.Flush();
      WroteThen(old(wire), old(wire) + WireBytes(full), wire, WireBytes(full), WireBytes(last), ok);
    }
  }

  lemma BodyChunk(t: RecordType, id: u16, body: seq<Option<bytes>>, i: nat)
    requires i < |body|
    ensures match body[i]
            case None => Total(body[..i + 1]) == Total(body[..i])
            case Some(val) =>
              var p := Rest(Total(body[..i]));
              var more := FullRecs(t, id, p + val);
              && |Total(body[..i + 1])| == |Total(body[..i])| + |val|
              && Rest(Total(body[..i + 1])) == Rest(p + val)
              && WireBytes(FullRecs(t, id, Total(body[..i + 1])))
                 == WireBytes(FullRecs(t, id, Total(body[..i]))) + WireBytes(more)
  {
    assert body[..i + 1] == body[..i] + [body[i]];
    TotalAppend(body[..i], [body[i]]);
    assert Total([body[i]]) == match body[i] case None => [] case Some(s) => s;
    if body[i].Some? {
      AppendTwice(t, id, Total(body[..i]), body[i].value);
      WireAppend(FullRecs(t, id, Total(body[..i])), FullRecs(t, id, Rest(Total(body[..i])) + body[i].value));
    }
  }

  /** What has been written of a body after i chunks is the start of what is written in the end. */
  lemma BodyStarts(t: RecordType, id: u16, body: seq<Option<bytes>>, i: nat, len: nat, w0: bytes, w: bytes)
    requires i <= |body|
    requires Wrote(w0, w, WireBytes(FullRecs(t, id, Total(body[..i]))), false)
    ensures Wrote(w0, w, WireBytes(BodyRecs(t, id, Total(body), len)), false)
  {
    assert body == body[..i] + body[i..];
    TotalAppend(body[..i], body[i..]);
    AppendTwice(t, id, Total(body[..i]), Total(body[i..]));
    var recs, all := FullRecs(t, id, Total(body[..i])), BodyRecs(t, id, Total(body), len);
    var rest := all[|recs|..];
    assert all == recs + rest;
    WireAppend(recs, rest);
    WroteShort(w0, w, WireBytes(recs), WireBytes(rest));
  }

  /** One more chunk of a body has been written, or has failed to be. */
  lemma BodyFinished(t: RecordType, id: u16, body: bytes, len: nat, w0: bytes, w: bytes, ok: bool)
    requires Wrote(w0 + WireBytes(FullRecs(t, id, body)), w, WireBytes(BodyEnd(t, id, Rest(body), len > |body|)), ok)
    ensures Wrote(w0, w, WireBytes(BodyRecs(t, id, body, len)), ok)
  {
    var full, last := FullRecs(t, id, body), BodyEnd(t, id, Rest(body), len > |body|);
    WireAppend(full, last);
    WroteThen(w0, w0 + WireBytes(full), w, WireBytes(full), WireBytes(last), ok);
  }

  lemma BodyStep(t: RecordType, id: u16, body: seq<Option<bytes>>, i: nat, len: nat, w0: bytes, before: bytes, w: bytes,
                 ok: bool)
    requires i < |body| && body[i].Some? && before == w0 + WireBytes(FullRecs(t, id, Total(body[..i])))
    requires Wrote(before, w, WireBytes(FullRecs(t, id, Rest(Total(body[..i])) + body[i].value)), ok)
    ensures if ok then w == w0 + WireBytes(FullRecs(t, id, Total(body[..i + 1])))
            else Wrote(w0, w, WireBytes(BodyRecs(t, id, Total(body), len)), false)
  {
    var done := WireBytes(FullRecs(t, id, Total(body[..i])));
    var more := WireBytes(FullRecs(t, id, Rest(Total(body[..i])) + body[i].value));
    BodyChunk(t, id, body, i);
    WroteThen(w0, before, w, done, more, ok);
    if !ok {
      BodyStarts(t, id, body, i + 1, len, w0, w);
    }
  }

  lemma TwoAppends(t: RecordType, id: u16, s: bytes, more: bytes)
    ensures WireBytes(FullRecs(t, id, s + more))
         == WireBytes(FullRecs(t, id, s)) + WireBytes(FullRecs(t, id, Rest(s) + more))
    ensures Rest(s + more) == Rest(Rest(s) + more)
  {
    AppendTwice(t, id, s, more);
    WireAppend(FullRecs(t, id, s), FullRecs(t, id, Rest(s) + more));
  }

  lemma NextPair(t: RecordType, id: u16, p: bytes, ps: seq<Pair>, i: nat)
    requires i < |ps| && AllEncodable(ps)
    ensures var s := p + EncodePairs(ps[..i]);
            var next := p + EncodePairs(ps[..i + 1]);
            && WireBytes(FullRecs(t, id, next))
               == WireBytes(FullRecs(t, id, s)) + WireBytes(FullRecs(t, id, Rest(s) + EncodePair(ps[i])))
            && Rest(next) == Rest(Rest(s) + EncodePair(ps[i]))
  {
    assert ps[..i + 1] == ps[..i] + [ps[i]];
    EncodePairsAppend(ps[..i], [ps[i]]);
    assert EncodePairs([ps[i]]) == EncodePair(ps[i]);
    Associate(p, EncodePairs(ps[..i]), EncodePair(ps[i]));
    TwoAppends(t, id, p + EncodePairs(ps[..i]), EncodePair(ps[i]));
  }

  /** What has been written of a list of pairs after i of them is the start of what is written in the end. */
  lemma PairsStart(t: RecordType, id: u16, p: bytes, ps: seq<Pair>, i: nat, w0: bytes, w: bytes)
    requires i <= |ps| && AllEncodable(ps)
    requires Wrote(w0, w, WireBytes(FullRecs(t, id, p + EncodePairs(ps[..i]))), false)
    ensures Wrote(w0, w, WireBytes(FullRecs(t, id, p + EncodePairs(ps))), false)
  {
    assert ps == ps[..i] + ps[i..];
    EncodePairsAppend(ps[..i], ps[i..]);
    Associate(p, EncodePairs(ps[..i]), EncodePairs(ps[i..]));
    TwoAppends(t, id, p + EncodePairs(ps[..i]), EncodePairs(ps[i..]));
    WroteShort(w0, w, WireBytes(FullRecs(t, id, p + EncodePairs(ps[..i]))),
               WireBytes(FullRecs(t, id, Rest(p + EncodePairs(ps[..i])) + EncodePairs(ps[i..]))));
  }

  class NameValuePairWriter {
    const w: FCGIWriter
    const requestId: u16
    const rtype: RecordType
    var buf: bytes

    constructor (w: FCGIWriter, requestId: u16, rtype: RecordType)
      ensures this.w == w && this.requestId == requestId && this.rtype == rtype
      ensures |buf| == HEADER_LEN
    {
      this.w := w;
      this.requestId := requestId;
      this.rtype := rtype;
      this.buf := seq(HEADER_LEN, k => 0);
    }

    method Put(val: bytes) returns (ok: bool)
      requires HEADER_LEN <= |buf| <= BUF_LEN
      modifies this, w
      ensures Wrote(old(w.wire), w.wire, WireBytes(FullRecs(rtype, requestId, old(buf)[HEADER_LEN..] + val)), ok)
      ensures ok ==> HEADER_LEN <= |buf| <= BUF_LEN && buf[HEADER_LEN..] == Rest(old(buf)[HEADER_LEN..] + val)
    {
      ok, buf := w.AppendToStream(val, buf, requestId, rtype);
    }

    method AddKv(name: bytes, val: bytes) returns (ok: bool)
      requires HEADER_LEN <= |buf| <= BUF_LEN
      requires |name| <= MAX_PART && |val| <= MAX_PART
      modifies this, w
      ensures Wrote(old(w.wire), w.wire,
                    WireBytes(FullRecs(rtype, requestId, old(buf)[HEADER_LEN..] + EncodePair(Pair(name, val)))), ok)
      ensures ok ==> HEADER_LEN <= |buf| <= BUF_LEN
      ensures ok ==> buf[HEADER_LEN..] == Rest(old(buf)[HEADER_LEN..] + EncodePair(Pair(name, val)))
    {
      var blen := Lengths(|name|, |val|);
      ghost var p := buf[HEADER_LEN..];
      ghost var w0 := w.wire;
      ghost var x1 := WireBytes(FullRecs(rtype, requestId, p + blen));
      ghost var x2 := WireBytes(FullRecs(rtype, requestId, Rest(p + blen) + name));
      ghost var x3 := WireBytes(FullRecs(rtype, requestId, Rest(p + blen + name) + val));
      assert p + EncodePair(Pair(name, val)) == p + blen + name + val;
      TwoAppends(rtype, requestId, p + blen, name);
      TwoAppends(rtype, requestId, p + blen + name, val);
      ok := Put(blen);
      if !ok {
        WroteShort(w0, w.wire, x1, x2);
        WroteShort(w0, w.wire, x1 + x2, x3);
        return;
      }
      ok := Put(name);
      WroteThen(w0, w0 + x1, w.wire, x1, x2, ok);
      if !ok {
        WroteShort(w0, w.wire, x1 + x2, x3);
        return;
      }
      ok := Put(val);
      WroteThen(w0, w0 + (x1 + x2), w.wire, x1 + x2, x3, ok);
    }

    /** Both lengths of a pair, each in one byte or in four. */
    method Lengths(nameLen: nat, valLen: nat) returns (blen: bytes)
      requires nameLen <= MAX_PART && valLen <= MAX_PART
      ensures blen == EncodeLength(nameLen) + EncodeLength(valLen)
    {
      var ln, lv := nameLen, valLen;
      blen := [];
      if ln > 0x7f {
        ln := ln + 0x8000_0000;
        blen := blen + PutU32(ln);
      } else {
        blen := blen + [ln];
      }
      if lv > 0x7f {
        lv := lv + 0x8000_0000;
        blen := blen + PutU32(lv);
      } else {
        blen := blen + [lv];
      }
    }

    /** Adds all pairs, behind what is pending. */
    method Extend(ps: seq<Pair>) returns (ok: bool)
      requires HEADER_LEN <= |buf| <= BUF_LEN && AllEncodable(ps)
      modifies this, w
      ensures var all := old(buf)[HEADER_LEN..] + EncodePairs(ps);
              && Wrote(old(w.wire), w.wire, WireBytes(FullRecs(rtype, requestId, all)), ok)
              && (ok ==> HEADER_LEN <= |buf| <= BUF_LEN && buf[HEADER_LEN..] == Rest(all))
    {
      ok := true;
      ghost var p := buf[HEADER_LEN..];
      assert p + EncodePairs([]) == p;
      for i := 0 to |ps|
        invariant HEADER_LEN <= |buf| <= BUF_LEN
        invariant w.wire == old(w.wire) + WireBytes(FullRecs(rtype, requestId, p + EncodePairs(ps[..i])))
        invariant buf[HEADER_LEN..] == Rest(p + EncodePairs(ps[..i]))
        invariant ok
      {
        ghost var before := w.wire;
        ghost var more := WireBytes(FullRecs(rtype, requestId, buf[HEADER_LEN..] + EncodePair(ps[i])));
        ghost var done := WireBytes(FullRecs(rtype, requestId, p + EncodePairs(ps[..i])));
        NextPair(rtype, requestId, p, ps, i);
        ok := AddKv(ps[i].name, ps[i].value);
        WroteThen(old(w.wire), before, w.wire, done, more, ok);
        if !ok {
          PairsStart(rtype, requestId, p, ps, i + 1, old(w.wire), w.wire);
          return;
        }
      }
      assert ps[..|ps|] == ps;
    }

    method Flush() returns (ok: bool)
      requires HEADER_LEN <= |buf| <= BUF_LEN
      modifies w
      ensures Wrote(old(w.wire), w.wire, WireBytes(LastRecs(rtype, requestId, buf[HEADER_LEN..])), ok)
    {
      ok := w.EndStream(buf, requestId, rtype);
    }
  }

  /**
   * Pairs of any length, straddling records or not: the peer that parses the records, joins their contents and
   * decodes as specified gets the same pairs in the same order.
   */
  lemma ParamsRoundTrip(t: RecordType, id: u16, ps: seq<Pair>)
    requires AllEncodable(ps)
    ensures var recs := Deframe(WireBytes(StreamRecs(t, id, EncodePairs(ps))));
            && IsStream(t, id, EncodePairs(ps), recs)
            && ParsePairs(Specified, Payloads(recs)) == Some(ps)
  {
    DeframeWire(StreamRecs(t, id, EncodePairs(ps)));
    FramedStream(t, id, EncodePairs(ps));
    PairsRoundTrip(ps);
  }

  /** A body is ended on the wire exactly when it is at least as long as announced, and aborted otherwise. */
  lemma ShortBodiesLookShort(t: RecordType, id: u16, body: bytes, len: nat)
    requires t != AbortRequest
    ensures var recs := Deframe(WireBytes(BodyRecs(t, id, body, len)));
            && (Rec(t, id, []) in recs <==> |body| >= len)
            && (AbortRec(id) in recs <==> |body| < len)
  {
    DeframeWire(BodyRecs(t, id, body, len));
    FullCarries(t, id, body);
    assert forall r :: r in FullRecs(t, id, body) ==> r.payload != [] && r.rtype == t;
  }

  /** Errors among the chunks of a body contribute nothing: what counts are the good chunks, in order. */
  function GoodChunks(body: seq<Option<bytes>>): seq<bytes>
  {
    if body == [] then [] else (match body[0] case None => [] case Some(s) => [s]) + GoodChunks(body[1..])
  }

  lemma {:induction false} TotalIsGood(body: seq<Option<bytes>>)
    ensures Total(body) == Flatten(GoodChunks(body))
  {
    if body != [] {
      TotalIsGood(body[1..]);
      FlattenAppend(match body[0] case None => [] case Some(s) => [s], GoodChunks(body[1..]));
      if body[0].Some? {
        FlattenPush([], body[0].value);
        assert [] + [body[0].value] == [body[0].value];
      }
    }
  }

  /**
   * What is on the wire of a body: long enough, it is one whole stream; short, it is full records of 65528 bytes that
   * carry its start, with at most that many bytes left over, and at least one unless there are none, and an abort.
   */
  lemma BodyOnWire(t: RecordType, id: u16, body: seq<Option<bytes>>, announced: nat)
    ensures var all, recs := Flatten(GoodChunks(body)), Deframe(WireBytes(BodyRecs(t, id, Total(body), announced)));
            var n := |recs| - 1;
            && n >= 0
            && (|all| >= announced ==> IsStream(t, id, all, recs))
            && (|all| < announced ==>
                  && recs[n] == Rec(AbortRequest, id, [])
                  && (forall k :: 0 <= k < n ==>
                        recs[k].rtype == t && recs[k].id == id && |recs[k].payload| == 65528)
                  && Payloads(recs[..n]) <= all && |all| - |Payloads(recs[..n])| <= 65528
                  && (Payloads(recs[..n]) == all ==> all == []))
  {
    TotalIsGood(body);
    var all := Total(body);
    DeframeWire(BodyRecs(t, id, all, announced));
    FramedStream(t, id, all);
    FullCarries(t, id, all);
    if |all| < announced {
      var full := FullRecs(t, id, all);
      assert (full + [AbortRec(id)])[..|full|] == full;
    }
  }
}
