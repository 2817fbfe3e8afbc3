/** Record headers, record bodies and the bytes of one record (FastCGI 1.0, sections 3.3 and 5). */
module Records {
  import opened Octets

  const HEADER_LEN: nat := 8
  const VERSION_1: byte := 1
  const MAX_LENGTH: nat := 0xffff
  const MGMT_REQUEST_ID: u16 := 0

  datatype RecordType =
    | BeginRequest | AbortRequest | EndRequest | Params | StdIn | StdOut | StdErr | Data
    | GetValues | GetValuesResult | UnknownType

  function Code(t: RecordType): (b: byte)
    ensures TypeOf(b) == Some(t)
  {
    match t
    case BeginRequest => 1
    case AbortRequest => 2
    case EndRequest => 3
    case Params => 4
    case StdIn => 5
    case StdOut => 6
    case StdErr => 7
    case Data => 8
    case GetValues => 9
    case GetValuesResult => 10
    case UnknownType => 11
  }

  function TypeOf(b: byte): Option<RecordType>
  {
    match b
    case 1 => Some(BeginRequest)
    case 2 => Some(AbortRequest)
    case 3 => Some(EndRequest)
    case 4 => Some(Params)
    case 5 => Some(StdIn)
    case 6 => Some(StdOut)
    case 7 => Some(StdErr)
    case 8 => Some(Data)
    case 9 => Some(GetValues)
    case 10 => Some(GetValuesResult)
    case 11 => Some(UnknownType)
    case _ => None
  }

  datatype Header = Header(
    version: byte,
    rtype: RecordType,
    requestId: u16,
    contentLength: u16,
    paddingLength: byte)

  /** A fresh header pads its content to a multiple of eight. */
  function NewHeader(rtype: RecordType, requestId: u16, len: u16): (h: Header)
    ensures h.paddingLength < 8
    ensures (h.contentLength + h.paddingLength) % 8 == 0
  {
    var pad := len % 8;
    Header(VERSION_1, rtype, requestId, len, if pad != 0 then 8 - pad else 0)
  }

  function HeaderBytes(h: Header): (r: bytes)
    ensures |r| == HEADER_LEN
  {
    [h.version, Code(h.rtype)] + PutU16(h.requestId) + PutU16(h.contentLength) + [h.paddingLength, 0]
  }

  /** None stands for the panic on a type byte outside 1..11. */
  function ParseHeader(data: bytes): Option<Header>
    requires |data| >= HEADER_LEN
  {
    match TypeOf(data[1])
    case None => None
    case Some(t) => Some(Header(data[0], t, GetU16(data[2..]), GetU16(data[4..]), data[6]))
  }

  lemma HeaderRoundTrip(h: Header, rest: bytes)
    ensures ParseHeader(HeaderBytes(h) + rest) == Some(h)
  {
    var d := HeaderBytes(h) + rest;
    assert d[2..] == PutU16(h.requestId) + (PutU16(h.contentLength) + [h.paddingLength, 0] + rest);
    assert d[4..] == PutU16(h.contentLength) + ([h.paddingLength, 0] + rest);
  }

  lemma ParseHeaderPrefix(data: bytes)
    requires |data| >= HEADER_LEN
    ensures ParseHeader(data) == ParseHeader(data[..HEADER_LEN])
  {
    var d := data[..HEADER_LEN];
    assert data[0] == d[0] && data[1] == d[1] && data[6] == d[6];
    assert data[2..][0] == d[2..][0] && data[2..][1] == d[2..][1];
    assert data[4..][0] == d[4..][0] && data[4..][1] == d[4..][1];
  }

  datatype ProtoStatus = Complete | CantMpxCon | Overloaded | UnknownRole

  datatype Body =
    | EndRequestBody(appStatus: u32, protocolStatus: ProtoStatus)
    | UnknownTypeBody(unknown: byte)
    | ParamsBody(pairs: bytes)
    | StdErrBody(err: bytes)
    | StdOutBody(out: bytes)
    | GetValuesBody(names: bytes)
    | GetValuesResultBody(values: bytes)

  datatype Record = Record(header: Header, body: Body)

  function StatusOf(b: byte): Option<ProtoStatus>
  {
    match b
    case 0 => Some(Complete)
    case 1 => Some(CantMpxCon)
    case 2 => Some(Overloaded)
    case 3 => Some(UnknownRole)
    case _ => None
  }

  /** None stands for a panic: too few bytes, an unknown status, or a type that is not implemented. */
  function ParseBody(payload: bytes, ptype: RecordType): Option<Body>
  {
    match ptype
    case StdOut => Some(StdOutBody(payload))
    case StdErr => Some(StdErrBody(payload))
    case EndRequest =>
      if |payload| < 8 || StatusOf(payload[4]).None? then None
      else Some(EndRequestBody(GetU32(payload), StatusOf(payload[4]).value))
    case UnknownType => if |payload| < 8 then None else Some(UnknownTypeBody(payload[0]))
    case GetValuesResult => Some(GetValuesResultBody(payload))
    case GetValues => Some(GetValuesBody(payload))
    case Params => Some(ParamsBody(payload))
    case _ => None
  }

  /** The types whose bodies may arrive in pieces without harm. */
  predicate Splittable(t: RecordType)
  {
    t in {StdOut, StdErr, Params, GetValues, GetValuesResult}
  }

  /** One record as the writers produce it: a type, an ID and a payload. */
  datatype Rec = Rec(rtype: RecordType, id: u16, payload: bytes)

  predicate Sized(recs: seq<Rec>)
  {
    forall k :: 0 <= k < |recs| ==> |recs[k].payload| <= MAX_LENGTH
  }

  function RecHeader(r: Rec): Header
    requires |r.payload| <= MAX_LENGTH
  {
    NewHeader(r.rtype, r.id, |r.payload|)
  }

  /** Header, payload, and as padding the first bytes of the header again. */
  function RecBytes(r: Rec): bytes
    requires |r.payload| <= MAX_LENGTH
  {
    var h := RecHeader(r);
    HeaderBytes(h) + r.payload + HeaderBytes(h)[..h.paddingLength]
  }

  function WireBytes(recs: seq<Rec>): bytes
    requires Sized(recs)
  {
    if recs == [] then [] else RecBytes(recs[0]) + WireBytes(recs[1..])
  }

  lemma SizedAppend(a: seq<Rec>, b: seq<Rec>)
    requires Sized(a) && Sized(b)
    ensures Sized(a + b)
  {}

  lemma {:induction false} WireAppend(a: seq<Rec>, b: seq<Rec>)
    requires Sized(a) && Sized(b)
    ensures Sized(a + b)
    ensures WireBytes(a + b) == WireBytes(a) + WireBytes(b)
  {
    SizedAppend(a, b);
    if a == [] {
      assert a + b == b;
    } else {
      assert (a + b)[0] == a[0] && (a + b)[1..] == a[1..] + b;
      WireAppend(a[1..], b);
      Associate(RecBytes(a[0]), WireBytes(a[1..]), WireBytes(b));
    }
  }

  function Payloads(recs: seq<Rec>): bytes
  {
    if recs == [] then [] else recs[0].payload + Payloads(recs[1..])
  }

  lemma {:induction false} PayloadsAppend(a: seq<Rec>, b: seq<Rec>)
    ensures Payloads(a + b) == Payloads(a) + Payloads(b)
  {
    if a == [] {
      assert a + b == b;
    } else {
      assert (a + b)[1..] == a[1..] + b;
      PayloadsAppend(a[1..], b);
    }
  }
}
