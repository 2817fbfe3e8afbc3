/**
 * The reference reader: an automaton that takes one byte at a time. The batched reader is proved to refine
 * it, so that nothing it reports depends on where the network cuts the stream.
 */
module Automaton {
  import opened Octets
  import opened Records
  import opened Reader

  /** One content byte, tagged with the type and the request ID of its record. */
  datatype Tag = Tag(rtype: RecordType, id: u16, b: byte)

  datatype Auto =
    | InHeader(got: bytes)
    | InContent(owed: Header)
    | InPadding(late: Header, seen: bytes)
    | Broken

  /** The state in which everything in h is still owed. */
  function Enter(h: Header): Auto
  {
    if h.contentLength > 0 then InContent(h)
    else if h.paddingLength > 0 then InPadding(h, [])
    else InHeader([])
  }

  function Step(s: Auto, b: byte): (Auto, seq<Tag>)
  {
    match s
    case InHeader(got) =>
      if |got| + 1 < HEADER_LEN then (InHeader(got + [b]), [])
      else if |got| + 1 > HEADER_LEN || ParseHeader(got + [b]).None? then (Broken, [])
      else (Enter(ParseHeader(got + [b]).value), [])
    case InContent(h) =>
      (if h.contentLength > 0 then Enter(h.(contentLength := h.contentLength - 1)) else Broken,
       [Tag(h.rtype, h.requestId, b)])
    case InPadding(h, seen) =>
      (if |seen| + 1 < h.paddingLength then InPadding(h, seen + [b]) else InHeader([]), [])
    case Broken => (Broken, [])
  }

  function Run(s: Auto, data: bytes): (Auto, seq<Tag>)
    decreases |data|
  {
    if data == [] then (s, [])
    else
      var (s1, t1) := Step(s, data[0]);
      var (s2, t2) := Run(s1, data[1..]);
      (s2, t1 + t2)
  }

  function Tags(rtype: RecordType, id: u16, content: bytes): (r: seq<Tag>)
    ensures |r| == |content|
  {
    seq(|content|, k requires 0 <= k < |content| => Tag(rtype, id, content[k]))
  }

  function TagsOf(f: Fragment): seq<Tag>
  {
    Tags(f.header.rtype, f.header.requestId, f.content)
  }

  /** What a list of fragments reports, whatever its cuts and empty pieces. */
  function Observed(fs: seq<Fragment>): seq<Tag>
  {
    if fs == [] then [] else TagsOf(fs[0]) + Observed(fs[1..])
  }

  lemma {:induction false} ObservedAppend(a: seq<Fragment>, b: seq<Fragment>)
    ensures Observed(a + b) == Observed(a) + Observed(b)
  {
    if a == [] {
      assert a + b == b;
    } else {
      assert (a + b)[1..] == a[1..] + b;
      ObservedAppend(a[1..], b);
    }
  }

  lemma NothingPlus(t: seq<Tag>)
    ensures [] + t == t
  {}

  lemma {:induction false} RunAppend(s: Auto, a: bytes, b: bytes)
    ensures var (s1, t1) := Run(s, a);
            var (s2, t2) := Run(s1, b);
            Run(s, a + b) == (s2, t1 + t2)
    decreases |a|
  {
    if a == [] {
      assert a + b == b;
      NothingPlus(Run(s, b).1);
    } else {
      assert (a + b)[1..] == a[1..] + b;
      var (s1, t1) := Step(s, a[0]);
      RunAppend(s1, a[1..], b);
      var (s2, t2) := Run(s1, a[1..]);
      assert t1 + (t2 + Run(s2, b).1) == (t1 + t2) + Run(s2, b).1;
    }
  }

  lemma {:induction false} RunBroken(data: bytes)
    ensures Run(Broken, data) == (Broken, [])
    decreases |data|
  {
    if data != [] {
      RunBroken(data[1..]);
      NothingPlus([]);
    }
  }

  lemma {:induction false} RunContent(h: Header, data: bytes)
    requires |data| <= h.contentLength
    ensures Run(Enter(h), data)
         == (Enter(h.(contentLength := h.contentLength - |data|)), Tags(h.rtype, h.requestId, data))
    decreases |data|
  {
    if data != [] {
      var h1 := h.(contentLength := h.contentLength - 1);
      RunContent(h1, data[1..]);
      assert Tags(h.rtype, h.requestId, data)
          == [Tag(h.rtype, h.requestId, data[0])] + Tags(h.rtype, h.requestId, data[1..]);
    }
  }

  lemma {:induction false} RunPadding(h: Header, seen: bytes, data: bytes)
    requires |seen| < h.paddingLength && |seen| + |data| <= h.paddingLength
    ensures Run(InPadding(h, seen), data)
         == (if |seen| + |data| < h.paddingLength then InPadding(h, seen + data) else InHeader([]), [])
    decreases |data|
  {
    NothingPlus([]);
    if data == [] {
      assert seen + data == seen;
    } else if |data| > 1 {
      assert (seen + [data[0]]) + data[1..] == seen + data;
      RunPadding(h, seen + [data[0]], data[1..]);
    } else {
      assert data[1..] == [];
      assert |seen + data| == |seen| + 1 && seen + data == seen + [data[0]];
    }
  }

  lemma {:induction false} RunHeader(got: bytes, data: bytes)
    requires |got| < HEADER_LEN && |got| + |data| <= HEADER_LEN
    ensures Run(InHeader(got), data)
         == (if |got| + |data| < HEADER_LEN then InHeader(got + data)
             else match ParseHeader(got + data) case None => Broken case Some(h) => Enter(h), [])
    decreases |data|
  {
    NothingPlus([]);
    if data == [] {
      assert got + data == got;
    } else {
      assert (got + [data[0]]) + data[1..] == got + data;
      if |got| + 1 < HEADER_LEN {
        RunHeader(got + [data[0]], data[1..]);
      } else {
        assert data[1..] == [];
      }
    }
  }

  // ---------- refinement ----------

  /** The automaton state a saved header stands for. */
  function Abstract(saved: Option<Header>): Auto
  {
    match saved case None => InHeader([]) case Some(h) => Enter(h)
  }

  /** The automaton state of a resting reader together with its unread bytes. */
  function Residue(saved: Option<Header>, rest: bytes): Auto
  {
    match saved
    case None => InHeader(rest)
    case Some(h) => if h.contentLength > 0 then InContent(h) else InPadding(h, rest)
  }

  lemma RestingState(saved: Option<Header>, rest: bytes)
    requires Owing(saved) && AtRest(saved, rest)
    ensures Run(Abstract(saved), rest) == (Residue(saved, rest), [])
  {
    if saved.None? {
      RunHeader([], rest);
      assert [] + rest == rest;
    } else if saved.value.contentLength == 0 {
      RunPadding(saved.value, [], rest);
      assert [] + rest == rest;
    }
  }

  /** A resting reader is determined by the automaton state. */
  lemma ResidueInjective(s1: Option<Header>, r1: bytes, s2: Option<Header>, r2: bytes)
    requires Owing(s1) && AtRest(s1, r1) && Owing(s2) && AtRest(s2, r2)
    requires Residue(s1, r1) == Residue(s2, r2)
    ensures s1 == s2 && r1 == r2
  {}

  /** Over a whole record body and its padding the automaton reports the content and is idle again. */
  lemma RunBody(h: Header, content: bytes, pad: bytes)
    requires |content| == h.contentLength && |pad| == h.paddingLength
    ensures Run(Enter(h), content + pad) == (InHeader([]), Tags(h.rtype, h.requestId, content))
  {
    RunAppend(Enter(h), content, pad);
    RunContent(h, content);
    if h.paddingLength > 0 {
      RunPadding(h.(contentLength := 0), [], pad);
    }
    var t := Tags(h.rtype, h.requestId, content);
    assert t + [] == t;
  }

  lemma TakeRefines(h: Header, data: bytes)
    ensures match TakeFragment(h, data)
            case Malformed => false
            case Starved(s, rest) => Run(Enter(h), data) == Run(Abstract(s), rest)
            case Delivered(f, s, rest) =>
              var (s2, t2) := Run(Abstract(s), rest);
              Run(Enter(h), data) == (s2, TagsOf(f) + t2)
  {
    var n := h.contentLength as int;
    var end := n + h.paddingLength;
    if |data| < n {
      RunContent(h, data);
      assert TagsOf(Fragment(h, data)) + [] == TagsOf(Fragment(h, data));
    } else if |data| >= end {
      assert data == (data[..n] + data[n..end]) + data[end..];
      RunBody(h, data[..n], data[n..end]);
      RunAppend(Enter(h), data[..n] + data[n..end], data[end..]);
    } else if n > 0 {
      assert data == data[..n] + data[n..];
      RunContent(h, data[..n]);
      RunAppend(Enter(h), data[..n], data[n..]);
    }
  }

  /** One call of the batched reader does what the automaton does on the same bytes. */
  lemma NextRefines(saved: Option<Header>, data: bytes)
    requires Owing(saved)
    ensures match NextFragment(saved, data)
            case Malformed => Run(Abstract(saved), data) == (Broken, [])
            case Starved(s, rest) => Run(Abstract(saved), data) == Run(Abstract(s), rest)
            case Delivered(f, s, rest) =>
              var (s2, t2) := Run(Abstract(s), rest);
              Run(Abstract(saved), data) == (s2, TagsOf(f) + t2)
  {
    if saved.Some? {
      TakeRefines(saved.value, data);
    } else if |data| >= HEADER_LEN {
      var head, tail := data[..HEADER_LEN], data[HEADER_LEN..];
      assert data == head + tail && [] + head == head;
      RunAppend(InHeader([]), head, tail);
      RunHeader([], head);
      ParseHeaderPrefix(data);
      if ParseHeader(data).None? {
        RunBroken(tail);
      } else {
        TakeRefines(ParseHeader(data).value, tail);
        NothingPlus(Run(Enter(ParseHeader(data).value), tail).1);
      }
    }
  }

  /** Draining the batched reader reports what the automaton reports, and stops in the automaton's state. */
  lemma {:induction false} DrainRefines(saved: Option<Header>, data: bytes)
    requires Owing(saved)
    ensures var d := Drain(saved, data);
            && Run(Abstract(saved), data)
               == (if d.malformed then Broken else Residue(d.saved, d.rest), Observed(d.frags))
            && (!d.malformed ==> Owing(d.saved) && AtRest(d.saved, d.rest))
    decreases |data|
  {
    NextRefines(saved, data);
    ReaderProgress(saved, data);
    match NextFragment(saved, data) {
      case Malformed =>
      case Starved(s, rest) => RestingState(s, rest);
      case Delivered(f, s, rest) =>
        DrainRefines(s, rest);
        var d := Drain(s, rest);
        assert ([f] + d.frags)[1..] == d.frags;
    }
  }

  // ---------- any cutting of the stream ----------

  /** Feeding a stream in chunks; unread bytes stay in front of the next chunk. */
  function Feed(saved: Option<Header>, unread: bytes, chunks: seq<bytes>): Drained
    requires Owing(saved)
    decreases |chunks|
  {
    if chunks == [] then Drained([], saved, unread, false)
    else
      var d := Drain(saved, unread + chunks[0]);
      DrainRefines(saved, unread + chunks[0]);
      if d.malformed then d
      else
        var e := Feed(d.saved, d.rest, chunks[1..]);
        e.(frags := d.frags + e.frags)
  }

  lemma {:induction false} FeedRefines(saved: Option<Header>, unread: bytes, chunks: seq<bytes>)
    requires Owing(saved) && AtRest(saved, unread)
    ensures var d := Feed(saved, unread, chunks);
            && Run(Residue(saved, unread), Flatten(chunks))
               == (if d.malformed then Broken else Residue(d.saved, d.rest), Observed(d.frags))
            && (!d.malformed ==> Owing(d.saved) && AtRest(d.saved, d.rest))
    decreases |chunks|
  {
    if chunks != [] {
      var c := chunks[0];
      var d := Drain(saved, unread + c);
      DrainRefines(saved, unread + c);
      RestingState(saved, unread);
      RunAppend(Abstract(saved), unread, c);
      RunAppend(Residue(saved, unread), c, Flatten(chunks[1..]));
      var tags := Run(Residue(saved, unread), c).1;
      assert [] + tags == tags;
      if d.malformed {
        RunBroken(Flatten(chunks[1..]));
        assert tags + [] == tags;
      } else {
        FeedRefines(d.saved, d.rest, chunks[1..]);
        ObservedAppend(d.frags, Feed(d.saved, d.rest, chunks[1..]).frags);
      }
    }
  }

  /**
   * Fragmentation independence: two cuttings of the same bytes report the same tagged bytes in the same order,
   * fail together, and leave the same saved header and the same unread bytes.
   */
  lemma CutIndependence(saved: Option<Header>, unread: bytes, cut1: seq<bytes>, cut2: seq<bytes>)
    requires Owing(saved) && AtRest(saved, unread)
    requires Flatten(cut1) == Flatten(cut2)
    ensures var d1, d2 := Feed(saved, unread, cut1), Feed(saved, unread, cut2);
            && Observed(d1.frags) == Observed(d2.frags)
            && d1.malformed == d2.malformed
            && (!d1.malformed ==> d1.saved == d2.saved && d1.rest == d2.rest)
  {
    FeedRefines(saved, unread, cut1);
    FeedRefines(saved, unread, cut2);
  }

  // ---------- what the writers' records look like to the reader ----------

  function RecTags(recs: seq<Rec>): seq<Tag>
  {
    if recs == [] then [] else Tags(recs[0].rtype, recs[0].id, recs[0].payload) + RecTags(recs[1..])
  }

  lemma ReadsRecord(r: Rec)
    requires |r.payload| <= MAX_LENGTH
    ensures Run(InHeader([]), RecBytes(r)) == (InHeader([]), Tags(r.rtype, r.id, r.payload))
  {
    var h := RecHeader(r);
    var head, pad := HeaderBytes(h), HeaderBytes(h)[..h.paddingLength];
    assert RecBytes(r) == head + (r.payload + pad);
    RunAppend(InHeader([]), head, r.payload + pad);
    RunHeader([], head);
    HeaderRoundTrip(h, []);
    assert [] + head == head && head + [] == head;
    RunBody(h, r.payload, pad);
    var t := Tags(r.rtype, r.id, r.payload);
    assert [] + t == t;
  }

  lemma {:induction false} ReadsRecords(recs: seq<Rec>)
    requires Sized(recs)
    ensures Run(InHeader([]), WireBytes(recs)) == (InHeader([]), RecTags(recs))
  {
    if recs != [] {
      ReadsRecord(recs[0]);
      ReadsRecords(recs[1..]);
      RunAppend(InHeader([]), RecBytes(recs[0]), WireBytes(recs[1..]));
    }
  }

  /** Any records, cut anywhere: their payload bytes arrive in order, tagged as sent, and nothing is left over. */
  lemma RecordsSurviveCutting(recs: seq<Rec>, chunks: seq<bytes>)
    requires Sized(recs) && Flatten(chunks) == WireBytes(recs)
    ensures var d := Feed(None, [], chunks);
            !d.malformed && d.saved == None && d.rest == [] && Observed(d.frags) == RecTags(recs)
  {
    FeedRefines(None, [], chunks);
    ReadsRecords(recs);
  }
}
