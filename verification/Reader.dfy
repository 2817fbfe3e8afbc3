/** The incremental record reader and the whole-record parser. */
module Reader {
  import opened Octets
  import opened Records

  /** One piece of a record: a header describing the piece, and its content. */
  datatype Fragment = Fragment(header: Header, content: bytes)

  datatype ReadStep =
    | Starved(saved: Option<Header>, rest: bytes)
    | Delivered(frag: Fragment, saved: Option<Header>, rest: bytes)
    | Malformed

  /** A saved header still owes at least one byte. */
  predicate Owing(saved: Option<Header>)
  {
    saved.Some? ==> saved.value.contentLength as int + saved.value.paddingLength > 0
  }

  /** The next piece of the record announced by h. */
  function TakeFragment(h: Header, data: bytes): ReadStep
  {
    var n := h.contentLength as int;
    if data == [] && n > 0 then
      Starved(Some(h), [])
    else if |data| < n then
      Delivered(Fragment(h.(contentLength := |data|, paddingLength := 0), data),
                Some(h.(contentLength := n - |data|)), [])
    else if |data| >= n + h.paddingLength then
      Delivered(Fragment(h, data[..n]), None, data[n + h.paddingLength..])
    else if n == 0 then
      Starved(Some(h), data)
    else
      Delivered(Fragment(h, data[..n]), Some(h.(contentLength := 0)), data[n..])
  }

  function NextFragment(saved: Option<Header>, data: bytes): ReadStep
  {
    match saved
    case Some(h) => TakeFragment(h, data)
    case None =>
      if |data| < HEADER_LEN then Starved(None, data)
      else match ParseHeader(data)
        case None => Malformed
        case Some(h) => TakeFragment(h, data[HEADER_LEN..])
  }

  /** Where the drain loop stops: part of a header, content owed and nothing left, or part of the padding. */
  predicate AtRest(saved: Option<Header>, rest: bytes)
  {
    match saved
    case None => |rest| < HEADER_LEN
    case Some(h) => if h.contentLength > 0 then rest == [] else |rest| < h.paddingLength
  }

  /** Every delivery shrinks the data, and a starved reader has consumed at most a header. */
  lemma ReaderProgress(saved: Option<Header>, data: bytes)
    requires Owing(saved)
    ensures match NextFragment(saved, data)
            case Delivered(f, s, rest) =>
              && Owing(s) && |rest| < |data| && f.header.contentLength == |f.content|
            case Starved(s, rest) =>
              Owing(s) && AtRest(s, rest) && |rest| <= |data| && (saved.Some? ==> s == saved && rest == data)
            case Malformed => saved.None? && |data| >= HEADER_LEN && TypeOf(data[1]).None?
  {}

  datatype ReadOutcome = NoRecord | Got(record: Record) | Panicked

  class RecordReader {
    var current: Option<Header>

    constructor ()
      ensures current == None
    {
      current := None;
    }

    /** One record, possibly a fragment of one, from the front of data. */
    method Read(data: bytes) returns (r: ReadOutcome, rest: bytes)
      modifies this
      ensures match NextFragment(old(current), data)
              case Starved(s, d) => r == NoRecord && current == s && rest == d
              case Malformed => r == Panicked
              case Delivered(f, s, d) =>
                && current == s && rest == d
                && r == match ParseBody(f.content, f.header.rtype)
                        case None => Panicked
                        case Some(b) => Got(Record(f.header, b))
    {
      rest := data;
      var fullHeader: Header;
      if current.Some? {
        fullHeader := current.value;
        current := None;
      } else {
        if |rest| < HEADER_LEN {
          return NoRecord, rest;
        }
        var parsed := ParseHeader(rest);
        if parsed.None? {
          return Panicked, rest;
        }
        fullHeader := parsed.value;
        rest := rest[HEADER_LEN..];
      }
      var bodyLen: nat := fullHeader.contentLength;
      var header := fullHeader;
      if |rest| < bodyLen {
        bodyLen := |rest|;
        header := header.(contentLength := bodyLen, paddingLength := 0);
        fullHeader := fullHeader.(contentLength := fullHeader.contentLength - bodyLen);
        current := Some(fullHeader);
        if bodyLen < 1 {
          return NoRecord, rest;
        }
      }
      var content := rest[..bodyLen];
      ghost var before := rest;
      assert bodyLen == |before| ==> content == before;
      rest := rest[bodyLen..];
      assert forall k :: 0 <= k <= |rest| ==> rest[k..] == before[bodyLen + k..];
      if |rest| < header.paddingLength {
        if bodyLen < 1 {
          current := Some(header);
          return NoRecord, rest;
        }
        current := Some(header.(contentLength := 0));
      } else {
        rest := rest[header.paddingLength..];
      }
      var body := ParseBody(content, header.rtype);
      r := if body.None? then Panicked else Got(Record(header, body.value));
    }
  }

  // ---------- the whole-record parser ----------

  /** Some(fragment, rest) only when header, content and padding are all there; None also for a panic. */
  function WholeRecord(data: bytes): Option<(Fragment, bytes)>
  {
    if |data| < HEADER_LEN || ParseHeader(data).None? then None
    else
      var h := ParseHeader(data).value;
      var end := HEADER_LEN + h.contentLength + h.paddingLength;
      if |data| < end then None
      else Some((Fragment(h, data[HEADER_LEN..HEADER_LEN + h.contentLength]), data[end..]))
  }

  /** The stateless parser used while connecting: all of a record or nothing. */
  method ReadWhole(data: bytes) returns (r: ReadOutcome, rest: bytes)
    ensures match WholeRecord(data)
            case None =>
              rest == data &&
              r == if |data| >= HEADER_LEN && TypeOf(data[1]).None? then Panicked else NoRecord
            case Some((f, d)) =>
              && rest == d
              && r == match ParseBody(f.content, f.header.rtype)
                      case None => Panicked
                      case Some(b) => Got(Record(f.header, b))
  {
    rest := data;
    if |rest| < HEADER_LEN {
      return NoRecord, rest;
    }
    var parsed := ParseHeader(rest);
    if parsed.None? {
      return Panicked, rest;
    }
    var header := parsed.value;
    var len := header.contentLength as nat + header.paddingLength;
    if |rest| < len + HEADER_LEN {
      return NoRecord, rest;
    }
    rest := rest[HEADER_LEN..];
    var content := rest[..header.contentLength];
    assert content == data[HEADER_LEN..HEADER_LEN + header.contentLength];
    assert rest[len..] == data[HEADER_LEN + len..];
    rest := rest[len..];
    var body := ParseBody(content, header.rtype);
    r := if body.None? then Panicked else Got(Record(header, body.value));
  }

  /** All complete records at the front of data, and what remains. */
  function WholeRecords(data: bytes): (seq<Fragment>, bytes)
    decreases |data|
  {
    match WholeRecord(data)
    case None => ([], data)
    case Some((f, rest)) =>
      var (fs, r) := WholeRecords(rest);
      ([f] + fs, r)
  }

  /** Reading until nothing more is delivered. */
  datatype Drained = Drained(frags: seq<Fragment>, saved: Option<Header>, rest: bytes, malformed: bool)

  function Drain(saved: Option<Header>, data: bytes): Drained
    requires Owing(saved)
    decreases |data|
  {
    ReaderProgress(saved, data);
    match NextFragment(saved, data)
    case Starved(s, rest) => Drained([], s, rest, false)
    case Malformed => Drained([], None, data, true)
    case Delivered(f, s, rest) =>
      var d := Drain(s, rest);
      d.(frags := [f] + d.frags)
  }

  /** Where the whole-record parser succeeds, an idle incremental reader does exactly the same. */
  lemma WholeIsIncremental(data: bytes)
    ensures match WholeRecord(data)
            case Some((f, rest)) => NextFragment(None, data) == Delivered(f, None, rest)
            case None => !exists f, rest :: NextFragment(None, data) == Delivered(f, None, rest)
  {
    if |data| >= HEADER_LEN && ParseHeader(data).Some? {
      var h := ParseHeader(data).value;
      var d := data[HEADER_LEN..];
      if WholeRecord(data).Some? {
        assert d[..h.contentLength] == data[HEADER_LEN..HEADER_LEN + h.contentLength];
        assert d[h.contentLength as int + h.paddingLength..]
            == data[HEADER_LEN + h.contentLength + h.paddingLength..];
      }
    }
  }

  function Prepend(fs: seq<Fragment>, d: Drained): Drained
  {
    d.(frags := fs + d.frags)
  }

  lemma PrependTwice(f: Fragment, fs: seq<Fragment>, d: Drained)
    ensures Prepend([f], Prepend(fs, d)) == Prepend([f] + fs, d)
    ensures Prepend([], d) == d
  {
    assert [f] + (fs + d.frags) == ([f] + fs) + d.frags && [] + d.frags == d.frags;
  }

  lemma DrainFirst(data: bytes, f: Fragment, rest: bytes)
    requires NextFragment(None, data) == Delivered(f, None, rest)
    ensures Drain(None, data) == Prepend([f], Drain(None, rest))
  {
    ReaderProgress(None, data);
  }

  /**
   * On every buffer the whole-record parser's records are the first ones the incremental reader yields, and
   * from there on the two see the same bytes.
   */
  lemma {:induction false} ParsersAgree(data: bytes)
    ensures Drain(None, data) == Prepend(WholeRecords(data).0, Drain(None, WholeRecords(data).1))
    decreases |data|
  {
    WholeIsIncremental(data);
    if WholeRecord(data).None? {
      PrependTwice(Fragment(Header(0, Data, 0, 0, 0), []), [], Drain(None, data));
    } else {
      var (f, r) := WholeRecord(data).value;
      ParsersAgree(r);
      DrainFirst(data, f, r);
      PrependTwice(f, WholeRecords(r).0, Drain(None, WholeRecords(r).1));
    }
  }

  /** On complete records the two parsers therefore agree entirely. */
  lemma ParsersAgreeOnRecords(data: bytes)
    requires WholeRecords(data).1 == []
    ensures Drain(None, data) == Drained(WholeRecords(data).0, None, [], false)
  {
    ParsersAgree(data);
    assert Drain(None, []) == Drained([], None, [], false);
  }
}
