/** The protocol in numbers: what the bytes are, said without the functions that write and parse them. */
module Numbers {
  import opened Octets
  import opened Records
  import opened Reader
  import opened NameValue
  import opened Framing
  import opened Codec
  import opened Requests
  import opened Client
  import EndToEnd

  // ---------- records ----------

  /** A record on the wire: version 1, type, ID, length, padding and a zero; then payload and padding. */
  lemma RecordInNumbers(r: Rec)
    requires |r.payload| <= 0xffff
    ensures var b, n := RecBytes(r), |r.payload|;
            var pad := |b| - 8 - n;
            && 0 <= pad < 8 && (n + pad) % 8 == 0
            && b[0] == 1
            && b[1] == (match r.rtype
                        case BeginRequest => 1 case AbortRequest => 2 case EndRequest => 3 case Params => 4
                        case StdIn => 5 case StdOut => 6 case StdErr => 7 case Data => 8
                        case GetValues => 9 case GetValuesResult => 10 case UnknownType => 11)
            && b[2] == r.id / 256 && b[3] == r.id % 256
            && b[4] == n / 256 && b[5] == n % 256
            && b[6] == pad && b[7] == 0
            && b[8..8 + n] == r.payload
            && forall k :: 0 <= k < pad ==> b[8 + n + k] == b[k]
  {}

  /** And as any peer may write it: every header there is, with its content and padding. */
  lemma HeaderInNumbers(p: EndToEnd.Padded)
    requires |p.rec.payload| <= 0xffff && |p.pad| <= 0xff
    ensures var b, n := EndToEnd.PaddedBytes(p), |p.rec.payload|;
            && |b| == 8 + n + |p.pad| && b[0] == p.version
            && b[1] == (match p.rec.rtype
                        case BeginRequest => 1 case AbortRequest => 2 case EndRequest => 3 case Params => 4
                        case StdIn => 5 case StdOut => 6 case StdErr => 7 case Data => 8
                        case GetValues => 9 case GetValuesResult => 10 case UnknownType => 11)
            && b[2] == p.rec.id / 256 && b[3] == p.rec.id % 256
            && b[4] == n / 256 && b[5] == n % 256
            && b[6] == |p.pad| && b[7] == 0
            && b[8..8 + n] == p.rec.payload && b[8 + n..] == p.pad
  {}

  /** The header that bytes stand for, but for its lengths. */
  predicate Names(h: Header, data: bytes)
    requires |data| >= 8
  {
    && h.version == data[0] && h.requestId == data[2] as int * 256 + data[3]
    && match data[1]
       case 1 => h.rtype == BeginRequest
       case 2 => h.rtype == AbortRequest
       case 3 => h.rtype == EndRequest
       case 4 => h.rtype == Params
       case 5 => h.rtype == StdIn
       case 6 => h.rtype == StdOut
       case 7 => h.rtype == StdErr
       case 8 => h.rtype == Data
       case 9 => h.rtype == GetValues
       case 10 => h.rtype == GetValuesResult
       case 11 => h.rtype == UnknownType
       case _ => false
  }

  /** What an idle reader makes of any bytes: the length is in bytes 4 and 5, the padding in byte 6. */
  lemma FragmentInNumbers(data: bytes)
    ensures |data| < 8 ==> NextFragment(None, data) == Starved(None, data)
    ensures |data| >= 8 ==>
              var n, pad, there := data[4] as int * 256 + data[5], data[6] as int, |data| - 8;
              var step := NextFragment(None, data);
              && (step.Malformed? <==> data[1] == 0 || data[1] > 11)
              && (step.Starved? ==>
                    there < n + pad && step.saved.Some? && Names(step.saved.value, data)
                    && step.saved.value.contentLength == n && step.saved.value.paddingLength == pad
                    && step.rest == data[8..])
              && (step.Delivered? ==>
                    && Names(step.frag.header, data)
                    && step.frag.content == data[8..8 + if there < n then there else n]
                    && (step.saved.None? <==> there >= n + pad)
                    && (step.saved.None? ==> step.rest == data[8 + n + pad..])
                    && (step.saved.Some? ==>
                          && Names(step.saved.value, data) && step.saved.value.paddingLength == pad
                          && step.saved.value.contentLength == (if there < n then n - there else 0)
                          && step.rest == data[8 + if there < n then there else n..]))
              && (step.Starved? <==> 1 <= data[1] <= 11 && ((n > 0 && there == 0) || (n == 0 && there < pad)))
  {}

  // ---------- bodies ----------

  /** What is parsed of a payload: which body, with which content. */
  lemma BodiesInNumbers(s: bytes)
    ensures ParseBody(s, StdOut) == Some(StdOutBody(s)) && ParseBody(s, StdErr) == Some(StdErrBody(s))
    ensures ParseBody(s, Params) == Some(ParamsBody(s)) && ParseBody(s, GetValues) == Some(GetValuesBody(s))
    ensures ParseBody(s, GetValuesResult) == Some(GetValuesResultBody(s))
    ensures ParseBody(s, UnknownType) == if |s| < 8 then None else Some(UnknownTypeBody(s[0]))
    ensures ParseBody(s, EndRequest)
         == if |s| < 8 || s[4] > 3 then None
            else Some(EndRequestBody(
                   s[0] as int * 0x100_0000 + s[1] as int * 0x1_0000 + s[2] as int * 0x100 + s[3],
                   match s[4] case 0 => Complete case 1 => CantMpxCon case 2 => Overloaded case _ => UnknownRole))
    ensures forall t :: t in {BeginRequest, AbortRequest, StdIn, Data} ==> ParseBody(s, t) == None
  {}

  /** Parsing the wire gives back who asks for what: a role, flags, and five zeros. */
  lemma BeginDeframed(id: u16, role: u16, flags: byte)
    ensures var recs := Deframe(WireBytes([BeginRec(id, role, flags)]));
            && |recs| == 1 && recs[0].rtype == BeginRequest && recs[0].id == id && |recs[0].payload| == 8
            && var p := recs[0].payload;
               p[0] as int * 256 + p[1] == role && p[2] == flags && p[3] == p[4] == p[5] == p[6] == p[7] == 0
  {
    DeframeWire([BeginRec(id, role, flags)]);
  }

  /** And both statuses of an end. */
  lemma EndDeframed(id: u16, app: u32, proto: byte)
    ensures var recs := Deframe(WireBytes([EndRec(id, app, proto)]));
            && |recs| == 1 && recs[0].rtype == EndRequest && recs[0].id == id && |recs[0].payload| == 8
            && ParseBody(recs[0].payload, EndRequest)
               == match proto
                  case 0 => Some(EndRequestBody(app, Complete))
                  case 1 => Some(EndRequestBody(app, CantMpxCon))
                  case 2 => Some(EndRequestBody(app, Overloaded))
                  case 3 => Some(EndRequestBody(app, UnknownRole))
                  case _ => None
  {
    DeframeWire([EndRec(id, app, proto)]);
    U32RoundTrip(app, [proto, 0, 0, 0]);
  }

  // ---------- what records do to requests ----------

  lemma OneRecord(slots: Slab, code: byte, t: RecordType, id: u16, s: bytes) returns (d: Distributed)
    requires |s| <= 0xffff && t in {StdOut, StdErr, EndRequest}
    requires code == match t case StdOut => 6 case StdErr => 7 case _ => 3
    ensures d == Distribute(slots, None, [1, code, id / 256, id % 256, |s| / 256, |s| % 256, 0, 0] + s)
    ensures match ParseBody(s, t)
            case None => d.panicked
            case Some(body) => d == Distributed(Dispatch(slots, id, body), None, [], false)
  {
    var head: bytes := [1, code, id / 256, id % 256, |s| / 256, |s| % 256, 0, 0];
    var b := head + s;
    HeadAndContent(head, s);
    FragmentInNumbers(b);
    var step := NextFragment(None, b);
    assert step.Delivered? && step.saved == None && step.rest == [] && step.frag.content == s;
    ReaderProgress(None, []);
    d := Distribute(slots, None, b);
  }

  lemma HeadAndContent(head: bytes, s: bytes)
    requires |head| == 8
    ensures (head + s)[8..] == s && (head + s)[8 + |s|..] == [] && (head + s)[8..8 + |s|] == s
  {}

  /** An output record: exactly its content goes behind what is buffered for the request, and a waker is taken. */
  lemma OutputInNumbers(slots: Slab, id: u16, s: bytes)
    requires 1 <= id <= |slots| && slots[id - 1].Some? && !slots[id - 1].value.aborted && 0 < |s| <= 0xffff
    ensures var q := slots[id - 1].value;
            Distribute(slots, None, [1, 6, id / 256, id % 256, |s| / 256, |s| % 256, 0, 0] + s)
            == Distributed(slots[id - 1 := Some(Request(q.buf + [s], false, q.ended, false))], None, [], false)
  {
    var d := OneRecord(slots, 6, StdOut, id, s);
    BodiesInNumbers(s);
  }

  /** Error output, records for nobody, and output of an aborted request or without content change nothing. */
  lemma IgnoredInNumbers(slots: Slab, code: byte, id: u16, s: bytes)
    requires |s| <= 0xffff && (code == 6 || code == 7)
    requires code == 6 ==> id == 0 || id > |slots| || slots[id - 1].None? || slots[id - 1].value.aborted || s == []
    ensures Distribute(slots, None, [1, code, id / 256, id % 256, |s| / 256, |s| % 256, 0, 0] + s)
         == Distributed(slots, None, [], false)
  {
    var t := if code == 6 then StdOut else StdErr;
    var d := OneRecord(slots, code, t, id, s);
    BodiesInNumbers(s);
  }

  /** An end record ends the request, or frees its slot if it has been aborted; an unknown status panics. */
  lemma EndingInNumbers(slots: Slab, id: u16, s: bytes)
    requires 1 <= id <= |slots| && slots[id - 1].Some? && |s| == 8
    ensures var q := slots[id - 1].value;
            var d := Distribute(slots, None, [1, 3, id / 256, id % 256, 0, 8, 0, 0] + s);
            && (d.panicked <==> s[4] > 3)
            && (s[4] <= 3 ==>
                  var left := if q.aborted then None else Some(Request(q.buf, false, true, false));
                  d == Distributed(slots[id - 1 := left], None, [], false))
  {
    var d := EndRecord(slots, id, s);
    KnownStatus(s);
    if s[4] <= 3 {
      EndDispatched(slots, id, ParseBody(s, EndRequest).value);
    }
  }

  lemma EndRecord(slots: Slab, id: u16, s: bytes) returns (d: Distributed)
    requires |s| == 8
    ensures d == Distribute(slots, None, [1, 3, id / 256, id % 256, 0, 8, 0, 0] + s)
    ensures match ParseBody(s, EndRequest)
            case None => d.panicked
            case Some(body) => d == Distributed(Dispatch(slots, id, body), None, [], false)
  {
    d := OneRecord(slots, 3, EndRequest, id, s);
    assert |s| / 256 == 0 && |s| % 256 == 8;
  }

  lemma EndDispatched(slots: Slab, id: u16, body: Body)
    requires 1 <= id <= |slots| && slots[id - 1].Some? && body.EndRequestBody?
    ensures var q := slots[id - 1].value;
            Dispatch(slots, id, body)
            == slots[id - 1 := if q.aborted then None else Some(Request(q.buf, false, true, false))]
  {}

  lemma KnownStatus(s: bytes)
    requires |s| == 8
    ensures ParseBody(s, EndRequest).Some? <==> s[4] <= 3
    ensures s[4] <= 3 ==> ParseBody(s, EndRequest).value.EndRequestBody?
  {}

  // ---------- name-value pairs ----------

  /** A length below 128 is one byte, any other four, high byte first, with the top bit set. */
  lemma PairInNumbers(p: Pair)
    requires |p.name| <= 0x7fff_ffff && |p.value| <= 0x7fff_ffff
    ensures var n, v := |p.name|, |p.value|;
            EncodePair(p)
            == (if n < 128 then [n] else [128 + n / 0x100_0000, n / 0x1_0000 % 256, n / 0x100 % 256, n % 256])
               + (if v < 128 then [v] else [128 + v / 0x100_0000, v / 0x1_0000 % 256, v / 0x100 % 256, v % 256])
               + p.name + p.value
  {
    LengthInNumbers(|p.name|);
    LengthInNumbers(|p.value|);
  }

  lemma LengthInNumbers(n: nat)
    requires n <= 0x7fff_ffff
    ensures EncodeLength(n)
         == if n < 128 then [n] else [128 + n / 0x100_0000, n / 0x1_0000 % 256, n / 0x100 % 256, n % 256]
  {
    if n >= 128 {
      FourBytes(n + 0x8000_0000);
      TopBit(n);
    }
  }

  lemma TopBit(n: nat)
    requires n <= 0x7fff_ffff
    ensures var m := n + 0x8000_0000;
            && m / 0x100_0000 == 128 + n / 0x100_0000 && m / 0x1_0000 % 256 == n / 0x1_0000 % 256
            && m / 0x100 % 256 == n / 0x100 % 256 && m % 256 == n % 256
  {
    HighParts(n);
    SameByte(n / 0x1_0000, 128);
    SameByte(n / 0x100, 0x8000);
    SameByte(n, 0x80_0000);
  }

  lemma HighParts(n: nat)
    ensures (n + 0x8000_0000) / 0x100_0000 == n / 0x100_0000 + 128
    ensures (n + 0x8000_0000) / 0x1_0000 == n / 0x1_0000 + 256 * 128
    ensures (n + 0x8000_0000) / 0x100 == n / 0x100 + 256 * 0x8000
  {}

  lemma SameByte(n: nat, k: nat)
    ensures (n + 256 * k) % 256 == n % 256
  {}

  // ---------- the opening of a request ----------

  /** The first record of a request asks for role 1, a responder, with flag 1, to keep the connection. */
  lemma OpeningInNumbers(id: u16, params: bytes, hasBody: bool, rejected: bool)
    ensures var recs := OpeningRecs(id, params, hasBody, rejected);
            && recs != [] && RecBytes(recs[0]) == [1, 1, id / 256, id % 256, 0, 8, 0, 0, 0, 1, 1, 0, 0, 0, 0, 0]
  {
    BeginInNumbers(id, 1, 1);
  }
}
