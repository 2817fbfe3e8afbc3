/** The slab of running requests, and what each record, poll or loss does to it. */
module Requests {
  import opened Octets
  import opened Records
  import opened Reader
  import opened Automaton

  datatype Request = Request(buf: seq<bytes>, waker: bool, ended: bool, aborted: bool)

  type Slab = seq<Option<Request>>

  const FRESH := Request([], false, false, false)

  predicate Occupied(slots: Slab, x: int)
  {
    0 <= x < |slots| && slots[x].Some?
  }

  /** What one record does. An aborted request is freed by its end record and takes no output any more. */
  function Dispatch(slots: Slab, id: u16, body: Body): (r: Slab)
    ensures |r| == |slots|
  {
    if !Occupied(slots, id - 1) then slots
    else
      var q := slots[id - 1].value;
      match body
      case EndRequestBody(_, _) =>
        slots[id - 1 := if q.aborted then None else Some(q.(ended := true, waker := false))]
      case StdOutBody(s) =>
        if q.aborted || s == [] then slots
        else slots[id - 1 := Some(q.(buf := q.buf + [s], waker := false))]
      case _ => slots
  }

  /** The end of a connection: every waker is taken and every request that was not aborted is ended. */
  function Notified(q: Request): Request
  {
    if q.aborted then q.(waker := false) else q.(waker := false, ended := true)
  }

  function NotifyAll(slots: Slab): (r: Slab)
    ensures |r| == |slots|
  {
    seq(|slots|, x requires 0 <= x < |slots| =>
      match slots[x] case None => None case Some(q) => Some(Notified(q)))
  }

  datatype Polled = Chunk(bytes: bytes) | Finished | Waiting

  datatype PollResult = PollResult(slots: Slab, answer: Polled, done: bool)

  /** What polling the body of slot x does once the connection has been polled. */
  function PollSlot(slots: Slab, x: nat, returned: bool): PollResult
  {
    if !Occupied(slots, x) then PollResult(slots, Finished, true)
    else
      var q := slots[x].value;
      if Flatten(q.buf) != [] then
        var left := q.buf[1..];
        if returned && q.ended && Flatten(left) == [] then PollResult(slots[x := None], Chunk(q.buf[0]), true)
        else PollResult(slots[x := Some(q.(buf := left))], Chunk(q.buf[0]), false)
      else if q.ended then
        if returned then PollResult(slots[x := None], Finished, true)
        else PollResult(slots, Finished, false)
      else PollResult(slots[x := Some(q.(waker := true))], Waiting, false)
  }

  function PushBack(slots: Slab, x: nat, left: bytes): Slab
    requires left != [] ==> Occupied(slots, x)
  {
    if left == [] then slots
    else slots[x := Some(slots[x].value.(buf := slots[x].value.buf + [left]))]
  }

  function Abort(slots: Slab, x: nat): Slab
  {
    if Occupied(slots, x) then slots[x := Some(slots[x].value.(aborted := true, waker := false))] else slots
  }

  // ---------- what these functions do, request by request ----------

  /**
   * What the poll of a body is answered: the front buffer if anything is buffered; otherwise the end, if that has come;
   * otherwise nothing, and then a waker is stored. A returned body is done, and its slot free, exactly if the request
   * has ended and nothing more is buffered.
   */
  lemma PollAnswers(slots: Slab, x: nat, returned: bool)
    requires Occupied(slots, x)
    ensures var p, q := PollSlot(slots, x, returned), slots[x].value;
            var some, more := Flatten(q.buf) != [], q.buf != [] && Flatten(q.buf[1..]) != [];
            && |p.slots| == |slots| && (forall y :: 0 <= y < |slots| && y != x ==> p.slots[y] == slots[y])
            && p.answer == (if some then Chunk(q.buf[0]) else if q.ended then Finished else Waiting)
            && (p.done <==> returned && q.ended && (some ==> !more)) && (p.done <==> p.slots[x].None?)
            && (!p.done ==>
                  p.slots[x] == Some(Request(if some then q.buf[1..] else q.buf,
                                             q.waker || (!some && !q.ended), q.ended, q.aborted)))
  {}

  /** The body of a request that has no slot any more is done at once. */
  lemma PollOfNobody(slots: Slab, x: nat, returned: bool)
    requires !Occupied(slots, x)
    ensures PollSlot(slots, x, returned) == PollResult(slots, Finished, true)
  {}

  /** The loss of a connection: every waker is taken, and every request ends that has not been aborted. */
  lemma LossEnds(slots: Slab, x: nat)
    requires x < |slots|
    ensures match slots[x]
            case None => NotifyAll(slots)[x] == None
            case Some(q) => NotifyAll(slots)[x] == Some(Request(q.buf, false, q.ended || !q.aborted, q.aborted))
  {}

  /** A dropped body: its request is aborted, and nobody is to be woken for it; no other request notices. */
  lemma DropAborts(slots: Slab, x: nat, y: nat)
    requires x < |slots| && y < |slots|
    ensures |Abort(slots, x)| == |slots|
    ensures Abort(slots, x)[y]
         == if y == x && slots[x].Some? then Some(Request(slots[x].value.buf, false, slots[x].value.ended, true))
            else slots[y]
  {}

  /** What is left over of the header goes behind everything that is buffered; no other request notices. */
  lemma LeftGoesLast(slots: Slab, x: nat, left: bytes, y: nat)
    requires Occupied(slots, x) && y < |slots|
    ensures |PushBack(slots, x, left)| == |slots|
    ensures var q, r := slots[x].value, PushBack(slots, x, left)[y];
            if y == x && left != [] then r == Some(Request(q.buf + [left], q.waker, q.ended, q.aborted))
            else r == slots[y]
  {}

  // ---------- distributing a stream ----------

  datatype Distributed = Distributed(slots: Slab, saved: Option<Header>, rest: bytes, panicked: bool)

  function Distribute(slots: Slab, saved: Option<Header>, data: bytes): (r: Distributed)
    requires Owing(saved)
    ensures |r.slots| == |slots|
    decreases |data|
  {
    ReaderProgress(saved, data);
    match NextFragment(saved, data)
    case Starved(s, rest) => Distributed(slots, s, rest, false)
    case Malformed => Distributed(slots, None, data, true)
    case Delivered(f, s, rest) =>
      match ParseBody(f.content, f.header.rtype)
      case None => Distributed(slots, s, rest, true)
      case Some(body) => Distribute(Dispatch(slots, f.header.requestId, body), s, rest)
  }

  /** A request as its reader sees it: the buffered bytes without their division into buffers. */
  datatype View = View(out: bytes, waker: bool, ended: bool, aborted: bool)

  function Look(q: Request): View
  {
    View(Flatten(q.buf), q.waker, q.ended, q.aborted)
  }

  function LookAll(slots: Slab): (r: seq<Option<View>>)
    ensures |r| == |slots|
  {
    seq(|slots|, x requires 0 <= x < |slots| =>
      match slots[x] case None => None case Some(q) => Some(Look(q)))
  }

  /** The reference demultiplexer: one tagged byte at a time. */
  function DispatchTag(views: seq<Option<View>>, t: Tag): (r: seq<Option<View>>)
    ensures |r| == |views|
  {
    var x := t.id - 1;
    if x < 0 || x >= |views| || views[x].None? then views
    else
      var v := views[x].value;
      match t.rtype
      case EndRequest => views[x := if v.aborted then None else Some(v.(ended := true, waker := false))]
      case StdOut => if v.aborted then views else views[x := Some(v.(out := v.out + [t.b], waker := false))]
      case _ => views
  }

  function DispatchTags(views: seq<Option<View>>, ts: seq<Tag>): seq<Option<View>>
    decreases |ts|
  {
    if ts == [] then views else DispatchTags(DispatchTag(views, ts[0]), ts[1..])
  }

  lemma {:induction false} DispatchTagsAppend(views: seq<Option<View>>, a: seq<Tag>, b: seq<Tag>)
    ensures DispatchTags(views, a + b) == DispatchTags(DispatchTags(views, a), b)
    decreases |a|
  {
    if a == [] {
      assert a + b == b;
    } else {
      assert (a + b)[1..] == a[1..] + b;
      DispatchTagsAppend(DispatchTag(views, a[0]), a[1..], b);
    }
  }

  lemma {:induction false} OutputTags(views: seq<Option<View>>, id: u16, s: bytes)
    ensures var x := id - 1;
            DispatchTags(views, Tags(StdOut, id, s))
            == if x < 0 || x >= |views| || views[x].None? || views[x].value.aborted || s == [] then views
               else views[x := Some(views[x].value.(out := views[x].value.out + s, waker := false))]
    decreases |s|
  {
    if s != [] {
      var t := Tags(StdOut, id, s);
      assert t[1..] == Tags(StdOut, id, s[1..]);
      var next := DispatchTag(views, t[0]);
      OutputTags(next, id, s[1..]);
      var x := id - 1;
      if 0 <= x < |views| && views[x].Some? {
        assert views[x].value.out + [s[0]] + s[1..] == views[x].value.out + s;
        assert s[1..] == [] ==> s == [s[0]];
      }
    }
  }

  lemma {:induction false} EndTagsAgain(views: seq<Option<View>>, id: u16, s: bytes)
    requires var x := id - 1;
             x < 0 || x >= |views| || views[x].None?
             || (views[x].value.ended && !views[x].value.waker && !views[x].value.aborted)
    ensures DispatchTags(views, Tags(EndRequest, id, s)) == views
    decreases |s|
  {
    if s != [] {
      assert Tags(EndRequest, id, s)[1..] == Tags(EndRequest, id, s[1..]);
      assert DispatchTag(views, Tags(EndRequest, id, s)[0]) == views;
      EndTagsAgain(views, id, s[1..]);
    }
  }

  lemma {:induction false} IgnoredTags(views: seq<Option<View>>, t: RecordType, id: u16, s: bytes)
    requires t != StdOut && t != EndRequest
    ensures DispatchTags(views, Tags(t, id, s)) == views
    decreases |s|
  {
    if s != [] {
      assert Tags(t, id, s)[1..] == Tags(t, id, s[1..]);
      IgnoredTags(views, t, id, s[1..]);
    }
  }

  lemma OneRequestChanged(slots: Slab, x: nat, q: Option<Request>)
    requires x < |slots|
    ensures LookAll(slots[x := q])
         == LookAll(slots)[x := match q case None => None case Some(p) => Some(Look(p))]
  {}

  /** Dispatching a record is dispatching its tagged bytes, as seen by the requests. */
  lemma DispatchRefines(slots: Slab, f: Fragment)
    requires ParseBody(f.content, f.header.rtype).Some?
    ensures LookAll(Dispatch(slots, f.header.requestId, ParseBody(f.content, f.header.rtype).value))
         == DispatchTags(LookAll(slots), TagsOf(f))
  {
    var id := f.header.requestId;
    var x: int := id as int - 1;
    var views := LookAll(slots);
    match f.header.rtype {
      case StdOut =>
        OutputTags(views, id, f.content);
        if Occupied(slots, x) {
          var q := slots[x].value;
          FlattenPush(q.buf, f.content);
          OneRequestChanged(slots, x, Some(q.(buf := q.buf + [f.content], waker := false)));
        }
      case EndRequest =>
        var t := TagsOf(f);
        assert t[1..] == Tags(EndRequest, id, f.content[1..]);
        EndTagsAgain(DispatchTag(views, t[0]), id, f.content[1..]);
        if Occupied(slots, x) {
          var q := slots[x].value;
          OneRequestChanged(slots, x, if q.aborted then None else Some(q.(ended := true, waker := false)));
        }
      case _ =>
        IgnoredTags(views, f.header.rtype, id, f.content);
    }
  }

  /** Without a panic, distributing bytes is running the reference reader into the reference demultiplexer. */
  lemma {:induction false} DistributeRefines(slots: Slab, saved: Option<Header>, data: bytes)
    requires Owing(saved)
    ensures var d := Distribute(slots, saved, data);
            var (s, ts) := Run(Abstract(saved), data);
            !d.panicked ==>
              && Owing(d.saved) && AtRest(d.saved, d.rest) && s == Residue(d.saved, d.rest)
              && LookAll(d.slots) == DispatchTags(LookAll(slots), ts)
    decreases |data|
  {
    NextRefines(saved, data);
    ReaderProgress(saved, data);
    match NextFragment(saved, data) {
      case Malformed =>
      case Starved(s, rest) => RestingState(s, rest);
      case Delivered(f, s, rest) =>
        if ParseBody(f.content, f.header.rtype).Some? {
          var next := Dispatch(slots, f.header.requestId, ParseBody(f.content, f.header.rtype).value);
          DistributeRefines(next, s, rest);
          DispatchRefines(slots, f);
          DispatchTagsAppend(LookAll(slots), TagsOf(f), Run(Abstract(s), rest).1);
        }
    }
  }

  /** Receiving chunk after chunk, unread bytes carried forward. */
  function Receive(slots: Slab, saved: Option<Header>, unread: bytes, chunks: seq<bytes>): Distributed
    requires Owing(saved)
    decreases |chunks|
  {
    if chunks == [] then Distributed(slots, saved, unread, false)
    else
      var d := Distribute(slots, saved, unread + chunks[0]);
      DistributeRefines(slots, saved, unread + chunks[0]);
      if d.panicked then d else Receive(d.slots, d.saved, d.rest, chunks[1..])
  }

  lemma {:induction false} ReceiveRefines(slots: Slab, saved: Option<Header>, unread: bytes, chunks: seq<bytes>)
    requires Owing(saved) && AtRest(saved, unread)
    ensures var d := Receive(slots, saved, unread, chunks);
            var (s, ts) := Run(Residue(saved, unread), Flatten(chunks));
            !d.panicked ==>
              && Owing(d.saved) && AtRest(d.saved, d.rest) && s == Residue(d.saved, d.rest)
              && LookAll(d.slots) == DispatchTags(LookAll(slots), ts)
    decreases |chunks|
  {
    if chunks != [] {
      var c := chunks[0];
      var d := Distribute(slots, saved, unread + c);
      DistributeRefines(slots, saved, unread + c);
      if !d.panicked {
        RestingState(saved, unread);
        RunAppend(Abstract(saved), unread, c);
        NothingPlus(Run(Residue(saved, unread), c).1);
        RunAppend(Residue(saved, unread), c, Flatten(chunks[1..]));
        ReceiveRefines(d.slots, d.saved, d.rest, chunks[1..]);
        DispatchTagsAppend(LookAll(slots), Run(Residue(saved, unread), c).1,
                           Run(Residue(d.saved, d.rest), Flatten(chunks[1..])).1);
      }
    }
  }

  // ---------- when cutting makes the demultiplexer panic ----------

  /** The types whose bodies are parsed whole. */
  predicate Whole(t: RecordType)
  {
    t == EndRequest || t == UnknownType
  }

  /** In the middle of a body that must arrive in one piece. */
  predicate InsideWhole(s: Auto)
  {
    s.InContent? && Whole(s.owed.rtype) && s.owed.contentLength < 8
  }

  /** A record the client can take at all: a stream, or eight bytes to be parsed whole; with any padding. */
  predicate Acceptable(h: Header)
  {
    Splittable(h.rtype) || (Whole(h.rtype) && h.contentLength == 8)
  }

  /** What a reader can be left with on such records: all of a whole body is owed, or none of it. */
  predicate Resumable(saved: Option<Header>)
  {
    saved.Some? ==> Acceptable(saved.value) || (Whole(saved.value.rtype) && saved.value.contentLength == 0)
  }

  /** The data completes the padding of a whole record whose body has been delivered before. */
  predicate EndsLatePadding(saved: Option<Header>, data: bytes)
  {
    && saved.Some? && Whole(saved.value.rtype) && saved.value.contentLength == 0
    && |data| >= saved.value.paddingLength
  }

  /** The next byte keeps the stream acceptable: a good header, or a known status in an end record. */
  predicate GoodByte(s: Auto, b: byte)
  {
    match s
    case InHeader(got) =>
      |got| + 1 == HEADER_LEN ==> ParseHeader(got + [b]).Some? && Acceptable(ParseHeader(got + [b]).value)
    case InContent(h) => h.rtype == EndRequest && h.contentLength == 4 ==> StatusOf(b).Some?
    case _ => true
  }

  predicate Good(s: Auto, data: bytes)
    decreases |data|
  {
    data == [] || (GoodByte(s, data[0]) && Good(Step(s, data[0]).0, data[1..]))
  }

  lemma {:induction false} GoodAppend(s: Auto, a: bytes, b: bytes)
    ensures Good(s, a + b) <==> Good(s, a) && Good(Run(s, a).0, b)
    decreases |a|
  {
    if a == [] {
      assert a + b == b;
    } else {
      assert (a + b)[1..] == a[1..] + b;
      GoodAppend(Step(s, a[0]).0, a[1..], b);
    }
  }

  /** A good header arrives complete only as an acceptable header. */
  lemma {:induction false} GoodHeader(got: bytes, data: bytes)
    requires |got| < HEADER_LEN <= |got| + |data| && Good(InHeader(got), data)
    ensures ParseHeader(got + data).Some? && Acceptable(ParseHeader(got + data).value)
    decreases |data|
  {
    assert (got + [data[0]]) + data[1..] == got + data;
    if |got| + 1 < HEADER_LEN {
      GoodHeader(got + [data[0]], data[1..]);
    } else {
      ParseHeaderPrefix(got + data);
      assert (got + data)[..HEADER_LEN] == got + [data[0]];
    }
  }

  /** The fifth byte of an end record's body is a known status. */
  lemma GoodStatus(h: Header, data: bytes)
    requires h.rtype == EndRequest && h.contentLength == 8 && |data| >= 8 && Good(InContent(h), data)
    ensures StatusOf(data[4]).Some?
  {
    assert data == data[..4] + data[4..];
    GoodAppend(InContent(h), data[..4], data[4..]);
    RunContent(h, data[..4]);
  }

  lemma GoodBodyParses(h: Header, data: bytes)
    requires Acceptable(h) && |data| >= h.contentLength && Good(Enter(h), data)
    ensures ParseBody(data[..h.contentLength], h.rtype).Some?
  {
    if h.rtype == EndRequest {
      GoodStatus(h, data);
    }
  }

  /** Behind a complete body the automaton is where the saved header says. */
  lemma EnterAfter(h: Header, data: bytes)
    requires |data| >= h.contentLength
    ensures match TakeFragment(h, data)
            case Delivered(f, s, rest) =>
              |rest| <= |data| && Run(Enter(h), data[..|data| - |rest|]).0 == Abstract(s)
            case _ => true
  {
    var n := h.contentLength as int;
    var end := n + h.paddingLength;
    if |data| >= end {
      assert data[..end] == data[..n] + data[n..end];
      RunBody(h, data[..n], data[n..end]);
    } else if n > 0 {
      RunContent(h, data[..n]);
    }
  }

  /**
   * On a good stream a panic means exactly that the data ends inside a body that must not be cut, or completes the
   * padding of such a body delivered earlier: that padding is followed by an empty record, which does not parse.
   */
  lemma {:induction false} DistributePanics(slots: Slab, saved: Option<Header>, data: bytes)
    requires Owing(saved) && Resumable(saved) && Good(Abstract(saved), data)
    ensures var d := Distribute(slots, saved, data);
            && (d.panicked <==> InsideWhole(Run(Abstract(saved), data).0) || EndsLatePadding(saved, data))
            && (!d.panicked ==> Resumable(d.saved))
    decreases |data|, 1
  {
    if saved.None? {
      if |data| >= HEADER_LEN {
        GoodHeader([], data);
        assert [] + data == data;
        var head, tail := data[..HEADER_LEN], data[HEADER_LEN..];
        assert data == head + tail;
        GoodAppend(InHeader([]), head, tail);
        RunAppend(InHeader([]), head, tail);
        RunHeader([], head);
        assert [] + head == head;
        ParseHeaderPrefix(data);
        TakePanics(slots, ParseHeader(data).value, tail);
      } else {
        RunHeader([], data);
      }
    } else {
      TakePanics(slots, saved.value, data);
    }
  }

  /** A part of a body parses exactly if that body may arrive in parts. */
  lemma CutBody(h: Header, data: bytes)
    requires Acceptable(h) && 0 < |data| < h.contentLength
    ensures Run(Enter(h), data).0 == InContent(h.(contentLength := h.contentLength - |data|))
    ensures ParseBody(data, h.rtype).None? <==> InsideWhole(Run(Enter(h), data).0)
  {
    RunContent(h, data);
  }

  /** A body that does not parse has been cut, or is what late padding leaves behind. */
  lemma UnparsedIsBad(h: Header, data: bytes)
    requires Resumable(Some(h)) && (Acceptable(h) || Owing(Some(h))) && Good(Enter(h), data)
    requires match TakeFragment(h, data)
             case Delivered(f, _, _) => ParseBody(f.content, f.header.rtype).None?
             case _ => false
    ensures InsideWhole(Run(Enter(h), data).0) || EndsLatePadding(Some(h), data)
  {
    if |data| < h.contentLength {
      CutBody(h, data);
    } else if Acceptable(h) {
      GoodBodyParses(h, data);
    }
  }

  /** A fragment that does not end in the middle of a whole record leaves a reader that can go on. */
  lemma GoesOn(h: Header, data: bytes)
    requires Resumable(Some(h)) && (Acceptable(h) || Owing(Some(h))) && Good(Enter(h), data)
    requires match TakeFragment(h, data)
             case Delivered(f, _, _) => ParseBody(f.content, f.header.rtype).Some?
             case _ => false
    ensures var s, rest := TakeFragment(h, data).saved, TakeFragment(h, data).rest;
            && Owing(s) && Resumable(s) && Good(Abstract(s), rest) && !EndsLatePadding(s, rest)
            && !EndsLatePadding(Some(h), data)
            && InsideWhole(Run(Enter(h), data).0) == InsideWhole(Run(Abstract(s), rest).0)
            && |rest| < if h.contentLength as int + h.paddingLength == 0 then |data| + 1 else |data|
  {
    TakeRefines(h, data);
    if |data| < h.contentLength {
      CutGoesOn(h, data);
    } else {
      GoodBehind(h, data);
    }
  }

  lemma CutGoesOn(h: Header, data: bytes)
    requires Acceptable(h) && 0 < |data| < h.contentLength && ParseBody(data, h.rtype).Some?
    ensures var s := h.(contentLength := h.contentLength - |data|);
            && TakeFragment(h, data).saved == Some(s) && TakeFragment(h, data).rest == []
            && Owing(Some(s)) && Acceptable(s) && Good(Enter(s), []) && !InsideWhole(Run(Enter(h), data).0)
            && !InsideWhole(Run(Enter(s), []).0)
  {
    CutBody(h, data);
  }

  /** Behind a complete body the stream is good as before. */
  lemma GoodBehind(h: Header, data: bytes)
    requires |data| >= h.contentLength && TakeFragment(h, data).Delivered? && Good(Enter(h), data)
    ensures Good(Abstract(TakeFragment(h, data).saved), TakeFragment(h, data).rest)
  {
    var rest := TakeFragment(h, data).rest;
    assert data == data[..|data| - |rest|] + rest;
    GoodAppend(Enter(h), data[..|data| - |rest|], rest);
    EnterAfter(h, data);
  }

  lemma NotYet(h: Header, data: bytes)
    requires Resumable(Some(h)) && TakeFragment(h, data).Starved?
    ensures TakeFragment(h, data).saved == Some(h)
    ensures !InsideWhole(Run(Enter(h), data).0) && !EndsLatePadding(Some(h), data)
  {
    TakeRefines(h, data);
    if h.contentLength == 0 {
      RunPadding(h, [], data);
    }
  }

  lemma {:induction false} TakePanics(slots: Slab, h: Header, data: bytes)
    requires Resumable(Some(h)) && (Acceptable(h) || Owing(Some(h))) && Good(Enter(h), data)
    ensures var step := TakeFragment(h, data);
            var bad := InsideWhole(Run(Enter(h), data).0) || EndsLatePadding(Some(h), data);
            match step
            case Malformed => false
            case Starved(s, rest) => !bad && s == Some(h)
            case Delivered(f, s, rest) =>
              match ParseBody(f.content, f.header.rtype)
              case None => bad
              case Some(body) =>
                var d := Distribute(Dispatch(slots, f.header.requestId, body), s, rest);
                (d.panicked <==> bad) && (!d.panicked ==> Resumable(d.saved))
    decreases if h.contentLength as int + h.paddingLength == 0 then |data| + 1 else |data|, 0
  {
    match TakeFragment(h, data) {
      case Starved(_, _) => NotYet(h, data);
      case Delivered(f, s, rest) =>
        if ParseBody(f.content, f.header.rtype).Some? {
          GoesOn(h, data);
          DistributePanics(Dispatch(slots, f.header.requestId, ParseBody(f.content, f.header.rtype).value), s, rest);
        } else {
          UnparsedIsBad(h, data);
        }
    }
  }

  /** The chunk completes the padding of a whole record whose body came with an earlier chunk. */
  predicate PaddingComesLate(s: Auto, chunk: bytes)
  {
    s.InPadding? && Whole(s.late.rtype) && |s.seen| + |chunk| >= s.late.paddingLength
  }

  /** No chunk ends inside a body that must arrive in one piece, and none brings the padding of such a body late. */
  predicate SafeCuts(s: Auto, chunks: seq<bytes>)
    decreases |chunks|
  {
    chunks == []
    || (var next := Run(s, chunks[0]).0;
        !PaddingComesLate(s, chunks[0]) && !InsideWhole(next) && SafeCuts(next, chunks[1..]))
  }

  lemma {:induction false} ReceivePanics(slots: Slab, saved: Option<Header>, unread: bytes, chunks: seq<bytes>)
    requires Owing(saved) && AtRest(saved, unread) && Resumable(saved)
    requires Good(Abstract(saved), unread + Flatten(chunks))
    ensures Receive(slots, saved, unread, chunks).panicked <==> !SafeCuts(Residue(saved, unread), chunks)
    decreases |chunks|
  {
    if chunks != [] {
      var c, tail := chunks[0], Flatten(chunks[1..]);
      assert unread + Flatten(chunks) == (unread + c) + tail;
      GoodAppend(Abstract(saved), unread + c, tail);
      DistributePanics(slots, saved, unread + c);
      DistributeRefines(slots, saved, unread + c);
      RestingState(saved, unread);
      RunAppend(Abstract(saved), unread, c);
      var d := Distribute(slots, saved, unread + c);
      if !d.panicked {
        RestingState(d.saved, d.rest);
        GoodResidue(d.saved, d.rest, tail);
        ReceivePanics(d.slots, d.saved, d.rest, chunks[1..]);
      }
    }
  }

  lemma {:induction false} GoodRest(saved: Option<Header>, rest: bytes)
    requires Owing(saved) && AtRest(saved, rest)
    ensures Good(Abstract(saved), rest)
    decreases |rest|
  {
    if rest != [] {
      var front, last := rest[..|rest| - 1], rest[|rest| - 1..];
      assert rest == front + last;
      GoodRest(saved, front);
      RestingState(saved, front);
      GoodAppend(Abstract(saved), front, last);
      assert Good(Residue(saved, front), last);
    }
  }

  /** Carrying unread bytes forward keeps a good stream good. */
  lemma GoodResidue(saved: Option<Header>, rest: bytes, tail: bytes)
    requires Owing(saved) && AtRest(saved, rest) && Good(Residue(saved, rest), tail)
    ensures Good(Abstract(saved), rest + tail)
  {
    GoodRest(saved, rest);
    RestingState(saved, rest);
    GoodAppend(Abstract(saved), rest, tail);
  }

  /**
   * Demultiplexing under any cutting. On a stream of acceptable records, padded or not, a cutting panics exactly if
   * it cuts a whole body or separates such a body from the end of its padding; cuttings that do not panic leave the
   * same buffered bytes, the same flags and vacancies, the same saved header and the same unread bytes.
   */
  lemma DemuxCutIndependence(slots: Slab, saved: Option<Header>, unread: bytes, cut1: seq<bytes>, cut2: seq<bytes>)
    requires Owing(saved) && AtRest(saved, unread) && Resumable(saved)
    requires Flatten(cut1) == Flatten(cut2) && Good(Abstract(saved), unread + Flatten(cut1))
    ensures var d1, d2 := Receive(slots, saved, unread, cut1), Receive(slots, saved, unread, cut2);
            && (d1.panicked <==> !SafeCuts(Residue(saved, unread), cut1))
            && (d2.panicked <==> !SafeCuts(Residue(saved, unread), cut2))
            && (!d1.panicked && !d2.panicked ==>
                  LookAll(d1.slots) == LookAll(d2.slots) && d1.saved == d2.saved && d1.rest == d2.rest)
  {
    ReceivePanics(slots, saved, unread, cut1);
    ReceivePanics(slots, saved, unread, cut2);
    ReceiveRefines(slots, saved, unread, cut1);
    ReceiveRefines(slots, saved, unread, cut2);
    if !Receive(slots, saved, unread, cut1).panicked && !Receive(slots, saved, unread, cut2).panicked {
      var d1, d2 := Receive(slots, saved, unread, cut1), Receive(slots, saved, unread, cut2);
      ResidueInjective(d1.saved, d1.rest, d2.saved, d2.rest);
    }
  }

  /** An end record that arrives in two pieces: the header and four bytes of the body, then the rest. */
  lemma SplitEndPanics(slots: Slab, id: u16)
    ensures var wire := RecBytes(Rec(EndRequest, id, [0, 0, 0, 0, 0, 0, 0, 0]));
            && !Receive(slots, None, [], [wire]).panicked
            && Receive(slots, None, [], [wire[..12], wire[12..]]).panicked
  {
    WholeEndTaken(slots, id);
    CutEndPanics(slots, id);
  }

  lemma WholeEndTaken(slots: Slab, id: u16)
    ensures !Receive(slots, None, [], [RecBytes(Rec(EndRequest, id, [0, 0, 0, 0, 0, 0, 0, 0]))]).panicked
  {
    var r := Rec(EndRequest, id, [0, 0, 0, 0, 0, 0, 0, 0]);
    var wire := RecBytes(r);
    var h := RecHeader(r);
    HeaderRoundTrip(h, r.payload);
    assert wire == HeaderBytes(h) + r.payload;
    assert wire[HEADER_LEN..] == r.payload;
    assert NextFragment(None, wire) == Delivered(Fragment(h, r.payload), None, []);
    assert [] + wire == wire;
    var one := [wire];
    assert one[1..] == [];
    assert ParseBody(r.payload, EndRequest).Some?;
    assert !Distribute(slots, None, wire).panicked;
  }

  lemma CutEndPanics(slots: Slab, id: u16)
    ensures var wire := RecBytes(Rec(EndRequest, id, [0, 0, 0, 0, 0, 0, 0, 0]));
            Receive(slots, None, [], [wire[..12], wire[12..]]).panicked
  {
    var r := Rec(EndRequest, id, [0, 0, 0, 0, 0, 0, 0, 0]);
    var wire := RecBytes(r);
    var h := RecHeader(r);
    HeaderRoundTrip(h, r.payload[..4]);
    var head := wire[..12];
    assert head == HeaderBytes(h) + r.payload[..4];
    assert head[HEADER_LEN..] == r.payload[..4];
    assert [] + head == head;
    assert NextFragment(None, head).Delivered?;
  }

  // ---------- when a connection counts as closed ----------

  /**
   * Nothing is consumed from a nonempty read buffer exactly when it holds a part of a header, or a part of
   * padding that is still owed. The connection is then reported closed although it is not.
   */
  lemma ClosedVerdict(slots: Slab, saved: Option<Header>, data: bytes)
    requires Owing(saved) && data != [] && !Distribute(slots, saved, data).panicked
    ensures |Distribute(slots, saved, data).rest| == |data|
       <==> match saved case None => |data| < HEADER_LEN
                        case Some(h) => h.contentLength == 0 && |data| < h.paddingLength
    ensures |Distribute(slots, saved, data).rest| == |data|
        ==> Distribute(slots, saved, data) == Distributed(slots, saved, data, false)
  {
    ReaderProgress(saved, data);
    match NextFragment(saved, data) {
      case Delivered(f, s, rest) =>
        var body := ParseBody(f.content, f.header.rtype).value;
        RestShrinks(Dispatch(slots, f.header.requestId, body), s, rest);
      case _ =>
    }
  }

  lemma {:induction false} RestShrinks(slots: Slab, saved: Option<Header>, data: bytes)
    requires Owing(saved)
    ensures |Distribute(slots, saved, data).rest| <= |data|
    decreases |data|
  {
    ReaderProgress(saved, data);
    match NextFragment(saved, data) {
      case Delivered(f, s, rest) =>
        if ParseBody(f.content, f.header.rtype).Some? {
          RestShrinks(Dispatch(slots, f.header.requestId, ParseBody(f.content, f.header.rtype).value), s, rest);
        }
      case _ =>
    }
  }
}
