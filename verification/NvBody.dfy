/** Name-value bodies: packing pairs into record bodies of limited size, and draining them again. */
module NvBody {
  import opened Octets
  import opened Records
  import opened BufVec
  import opened NameValue

  function PairsLen(ps: seq<Pair>): nat
  {
    if ps == [] then 0 else PairLen(ps[0]) + PairsLen(ps[1..])
  }

  /** A list of pairs that one record body can hold. */
  predicate OneBody(ps: seq<Pair>)
  {
    AllEncodable(ps) && PairsLen(ps) <= MAX_LENGTH
  }

  predicate AllBodies(parts: seq<seq<Pair>>)
  {
    forall k :: 0 <= k < |parts| ==> OneBody(parts[k])
  }

  lemma {:induction false} PairsLenIsSize(ps: seq<Pair>)
    requires AllEncodable(ps)
    ensures |EncodePairs(ps)| == PairsLen(ps)
  {
    if ps != [] {
      PairLenIsSize(ps[0]);
      PairsLenIsSize(ps[1..]);
    }
  }

  lemma {:induction false} PairsLenAppend(ps: seq<Pair>, p: Pair)
    ensures PairsLen(ps + [p]) == PairsLen(ps) + PairLen(p)
  {
    if ps == [] {
      assert ps + [p] == [p] && PairsLen([p][1..]) == 0;
    } else {
      assert (ps + [p])[1..] == ps[1..] + [p];
      PairsLenAppend(ps[1..], p);
    }
  }

  /** A pair fits exactly when the body with it is one record's body; then it also has encodable lengths. */
  lemma FitsOneBody(ps: seq<Pair>, p: Pair)
    requires OneBody(ps)
    ensures OneBody(ps + [p]) <==> PairsLen(ps) + PairLen(p) <= 0xffff
    ensures OneBody(ps + [p]) ==> Encodable(p) && EncodePairs(ps + [p]) == EncodePairs(ps) + EncodePair(p)
  {
    PairsLenAppend(ps, p);
    assert (ps + [p])[|ps|] == p;
    if Encodable(p) {
      EncodePairsAppend(ps, [p]);
      assert EncodePairs([p]) == EncodePair(p);
    }
  }

  // ---------- packing ----------

  function Joined(parts: seq<seq<Pair>>): seq<Pair>
  {
    if parts == [] then [] else parts[0] + Joined(parts[1..])
  }

  lemma {:induction false} JoinedLast(front: seq<seq<Pair>>, q: seq<Pair>)
    ensures Joined(front + [q]) == Joined(front) + q
  {
    if front == [] {
      assert front + [q] == [q] && Joined([q][1..]) == [];
    } else {
      assert (front + [q])[1..] == front[1..] + [q];
      JoinedLast(front[1..], q);
    }
  }

  /** Where a pair goes: the last body if it fits, a new one otherwise. */
  function Pack(parts: seq<seq<Pair>>, p: Pair): (r: seq<seq<Pair>>)
    requires parts != []
    ensures r != []
  {
    var n := |parts| - 1;
    if PairsLen(parts[n]) + PairLen(p) <= MAX_LENGTH then parts[n := parts[n] + [p]] else parts + [[p]]
  }

  /** Packing keeps every body within one record and conserves the pairs and their order. */
  lemma PackConserves(parts: seq<seq<Pair>>, p: Pair)
    requires parts != [] && AllBodies(parts) && PairLen(p) <= MAX_LENGTH
    ensures AllBodies(Pack(parts, p)) && Joined(Pack(parts, p)) == Joined(parts) + [p]
    ensures |Pack(parts, p)| == |parts| <==> OneBody(parts[|parts| - 1] + [p])
  {
    var n := |parts| - 1;
    FitsOneBody(parts[n], p);
    if PairsLen(parts[n]) + PairLen(p) <= MAX_LENGTH {
      LastGrows(parts[..n], parts[n], p);
      LastReplaced(parts, parts[n] + [p]);
    } else {
      FitsOneBody([], p);
      assert [] + [p] == [p];
      JoinedLast(parts, [p]);
    }
  }

  lemma LastReplaced(parts: seq<seq<Pair>>, q: seq<Pair>)
    requires parts != []
    ensures var n := |parts| - 1; parts == parts[..n] + [parts[n]] && parts[n := q] == parts[..n] + [q]
  {}

  lemma LastGrows(front: seq<seq<Pair>>, q: seq<Pair>, p: Pair)
    ensures Joined(front + [q + [p]]) == Joined(front + [q]) + [p]
  {
    JoinedLast(front, q);
    JoinedLast(front, q + [p]);
    assert Joined(front) + (q + [p]) == Joined(front) + q + [p];
  }

  /** Every pair fits a record of its own. */
  predicate Packable(ps: seq<Pair>)
  {
    forall k :: 0 <= k < |ps| ==> PairLen(ps[k]) <= MAX_LENGTH
  }

  function PackAll(parts: seq<seq<Pair>>, ps: seq<Pair>): (r: seq<seq<Pair>>)
    requires parts != []
    ensures r != []
    decreases |ps|
  {
    if ps == [] then parts else PackAll(Pack(parts, ps[0]), ps[1..])
  }

  lemma {:induction false} PackAllNext(parts: seq<seq<Pair>>, ps: seq<Pair>, p: Pair)
    requires parts != []
    ensures PackAll(parts, ps + [p]) == Pack(PackAll(parts, ps), p)
    decreases |ps|
  {
    if ps == [] {
      assert ps + [p] == [p] && [p][1..] == [];
      assert PackAll(Pack(parts, p), [p][1..]) == Pack(parts, p);
    } else {
      assert (ps + [p])[1..] == ps[1..] + [p];
      PackAllNext(Pack(parts, ps[0]), ps[1..], p);
    }
  }

  lemma PackNext(parts: seq<seq<Pair>>, ps: seq<Pair>, i: nat)
    requires parts != [] && i < |ps|
    ensures PackAll(parts, ps[..i + 1]) == Pack(PackAll(parts, ps[..i]), ps[i])
  {
    assert ps[..i + 1] == ps[..i] + [ps[i]];
    PackAllNext(parts, ps[..i], ps[i]);
  }

  lemma FirstAndRest(ps: seq<Pair>)
    requires ps != []
    ensures [ps[0]] + ps[1..] == ps
  {}

  /** Packing a whole list: every body within one record, all pairs conserved in order. */
  lemma {:induction false} PackAllConserves(parts: seq<seq<Pair>>, ps: seq<Pair>)
    requires parts != [] && AllBodies(parts) && Packable(ps)
    ensures AllBodies(PackAll(parts, ps)) && Joined(PackAll(parts, ps)) == Joined(parts) + ps
    decreases |ps|
  {
    if ps == [] {
      assert Joined(parts) + [] == Joined(parts);
    } else {
      PackConserves(parts, ps[0]);
      PackAllConserves(Pack(parts, ps[0]), ps[1..]);
      FirstAndRest(ps);
      Associate(Joined(parts), [ps[0]], ps[1..]);
    }
  }

  /** A body is not closed too early: the first pair of the next one would not have fitted. */
  predicate Tight(parts: seq<seq<Pair>>)
  {
    forall k :: 1 <= k < |parts| ==> Overfull(parts[k - 1], parts[k])
  }

  predicate Overfull(a: seq<Pair>, b: seq<Pair>)
  {
    b != [] && PairsLen(a + [b[0]]) > 0xffff
  }

  lemma PackIsTight(parts: seq<seq<Pair>>, p: Pair)
    requires parts != [] && Tight(parts)
    ensures Tight(Pack(parts, p))
  {
    var r, n := Pack(parts, p), |parts| - 1;
    PairsLenAppend(parts[n], p);
    forall k | 1 <= k < |r| ensures Overfull(r[k - 1], r[k]) {
      if k <= n {
        assert Overfull(parts[k - 1], parts[k]) && r[k - 1] == parts[k - 1] && r[k][0] == parts[k][0];
      }
    }
  }

  lemma {:induction false} PackAllIsTight(parts: seq<seq<Pair>>, ps: seq<Pair>)
    requires parts != [] && Tight(parts)
    ensures Tight(PackAll(parts, ps))
    decreases |ps|
  {
    if ps != [] {
      PackIsTight(parts, ps[0]);
      PackAllIsTight(Pack(parts, ps[0]), ps[1..]);
    }
  }

  // ---------- draining ----------

  function StoredOne(p: Pair): seq<bytes>
    requires Encodable(p)
  {
    [EncodeLength(|p.name|) + EncodeLength(|p.value|), p.name] + if p.value == [] then [] else [p.value]
  }

  /** The buffers that hold a list of pairs. */
  function Stored(ps: seq<Pair>): seq<bytes>
    requires AllEncodable(ps)
  {
    if ps == [] then [] else StoredOne(ps[0]) + Stored(ps[1..])
  }

  lemma {:induction false} StoredAppend(ps: seq<Pair>, p: Pair)
    requires AllEncodable(ps) && Encodable(p)
    ensures AllEncodable(ps + [p]) && Stored(ps + [p]) == Stored(ps) + StoredOne(p)
  {
    assert forall q :: q in ps + [p] ==> q in ps || q == p;
    if ps == [] {
      assert ps + [p] == [p] && Stored([p][1..]) == [];
    } else {
      assert (ps + [p])[1..] == ps[1..] + [p];
      StoredAppend(ps[1..], p);
      Associate(StoredOne(ps[0]), Stored(ps[1..]), StoredOne(p));
    }
  }

  lemma StoredOneIsFlat(p: Pair)
    requires Encodable(p)
    ensures Flatten(StoredOne(p)) == EncodePair(p)
  {
    var lengths := EncodeLength(|p.name|) + EncodeLength(|p.value|);
    FlattenPush([], lengths);
    FlattenPush([] + [lengths], p.name);
    FlattenPush([] + [lengths] + [p.name], p.value);
    assert [] + [lengths] + [p.name] == [lengths, p.name];
    assert [lengths, p.name] + [] == [lengths, p.name];
  }

  lemma {:induction false} StoredIsFlat(ps: seq<Pair>)
    requires AllEncodable(ps)
    ensures Flatten(Stored(ps)) == EncodePairs(ps)
  {
    if ps != [] {
      StoredOneIsFlat(ps[0]);
      StoredIsFlat(ps[1..]);
      FlattenAppend(StoredOne(ps[0]), Stored(ps[1..]));
    }
  }

  /** A pair without a name has something behind it: its value, or another pair. */
  predicate Clogged(ps: seq<Pair>)
  {
    ps != [] && ((ps[0].name == [] && (ps[0].value != [] || |ps| > 1)) || Clogged(ps[1..]))
  }

  lemma ClogsAt(p: Pair, rest: seq<bytes>, more: nat)
    requires Encodable(p)
    ensures Stalls(StoredOne(p) + rest, |EncodePair(p)| + more)
       <==> (p.name == [] && |p.value| + more > 0) || Stalls(rest, more)
  {
    var bufs := StoredOne(p) + rest;
    var n := |EncodePair(p)| + more;
    var lengths := bufs[0];
    assert bufs[1] == p.name && bufs[1..][0] == p.name;
    assert Stalls(bufs, n) <==> |lengths| < n && Stalls(bufs[1..], n - |lengths|);
    if p.name != [] {
      assert n - |lengths| == |p.name| + |p.value| + more;
      if p.value == [] {
        assert bufs[1..][1..] == rest;
      } else {
        var last := [p.value] + rest;
        assert bufs[1..][1..] == last && last[1..] == rest && last[0] == p.value;
        assert Stalls(bufs[1..], |p.name| + |p.value| + more) <==> Stalls(last, |p.value| + more);
        assert Stalls(last, |p.value| + more) <==> more > 0 && Stalls(rest, more);
      }
    }
  }

  /** Draining a body never ends exactly if a pair without a name has something behind it. */
  lemma {:induction false} DrainStalls(ps: seq<Pair>)
    requires AllEncodable(ps)
    ensures Stalls(Stored(ps), |EncodePairs(ps)|) <==> Clogged(ps)
  {
    if ps != [] {
      ClogsAt(ps[0], Stored(ps[1..]), |EncodePairs(ps[1..])|);
      DrainStalls(ps[1..]);
    }
  }

  /** What comes out when the bodies are decoded one after the other. */
  function Decoded(dec: Decoder, bodies: seq<bytes>): Option<seq<Pair>>
  {
    if bodies == [] then Some([])
    else match (ParsePairs(dec, bodies[0]), Decoded(dec, bodies[1..]))
      case (Some(ps), Some(rest)) => Some(ps + rest)
      case _ => None
  }

  function Contents(parts: seq<seq<Pair>>): (r: seq<bytes>)
    requires AllBodies(parts)
    ensures |r| == |parts|
  {
    seq(|parts|, k requires 0 <= k < |parts| => EncodePairs(parts[k]))
  }

  /** Decoding packed bodies gives back the pairs; as the decoder is written, exactly if all are short. */
  lemma {:induction false} DecodingReturnsPairs(parts: seq<seq<Pair>>)
    requires AllBodies(parts)
    ensures Decoded(Specified, Contents(parts)) == Some(Joined(parts))
    ensures Decoded(AsWritten, Contents(parts)) == Some(Joined(parts)) <==> AllShort(Joined(parts))
    ensures Decoded(AsWritten, Contents(parts)) == None <==> !AllShort(Joined(parts))
  {
    if parts != [] {
      DecodingReturnsPairs(parts[1..]);
      DecodedFirst(Specified, parts);
      DecodedFirst(AsWritten, parts);
      PairsRoundTrip(parts[0]);
      WrittenDecoderLimits(parts[0]);
      ShortInBoth(parts[0], Joined(parts[1..]));
    }
  }

  lemma DecodedFirst(dec: Decoder, parts: seq<seq<Pair>>)
    requires AllBodies(parts) && parts != []
    ensures AllBodies(parts[1..]) && Joined(parts) == parts[0] + Joined(parts[1..])
    ensures Decoded(dec, Contents(parts))
         == match (ParsePairs(dec, EncodePairs(parts[0])), Decoded(dec, Contents(parts[1..])))
            case (Some(ps), Some(rest)) => Some(ps + rest)
            case _ => None
  {
    assert Contents(parts)[1..] == Contents(parts[1..]);
  }

  lemma ShortInBoth(a: seq<Pair>, b: seq<Pair>)
    ensures AllShort(a + b) <==> AllShort(a) && AllShort(b)
  {
    assert forall k :: 0 <= k < |a| ==> a[k] == (a + b)[k];
    assert forall k :: 0 <= k < |b| ==> b[k] == (a + b)[|a| + k];
  }

  /**
   * Packing and draining any list of pairs, each of which fits a record: every body is within its record, and the
   * bodies drained in order decode, as section 3.4 says, to the list.
   */
  lemma PackThenDrain(ps: seq<Pair>)
    requires Packable(ps)
    ensures var parts := PackAll([[]], ps);
            && AllBodies(parts) && Joined(parts) == ps && Tight(parts)
            && Decoded(Specified, Contents(parts)) == Some(ps)
            && (Decoded(AsWritten, Contents(parts)) == Some(ps) <==> AllShort(ps))
  {
    var none: seq<seq<Pair>> := [[]];
    assert AllBodies(none) && none[1..] == [] && Joined(none) == [];
    PackAllConserves(none, ps);
    PackAllIsTight(none, ps);
    assert [] + ps == ps;
    DecodingReturnsPairs(PackAll(none, ps));
  }

  class NVBody {
    const pairs: BufList
    var len: u16
    /** The pairs added so far. */
    ghost var added: seq<Pair>

    ghost predicate Valid()
      reads this, pairs
    {
      OneBody(added) && pairs.bufs == Stored(added) && len == PairsLen(added)
    }

    constructor ()
      ensures Valid() && added == [] && fresh(pairs)
    {
      pairs := new BufList();
      len := 0;
      added := [];
    }

    method Fits(pair: Pair) returns (fits: bool)
      requires Valid()
      ensures fits <==> PairsLen(added) + PairLen(pair) <= 0xffff
    {
      var l := PairLen(pair) + len;
      fits := l <= MAX_LENGTH;
    }

    /** Refuses exactly the pairs that do not fit; the later size checks can then no longer fail. */
    method Add(pair: Pair) returns (ok: bool)
      requires Valid()
      modifies this, pairs
      ensures Valid()
      ensures ok <==> PairsLen(old(added)) + PairLen(pair) <= 0xffff
      ensures added == if ok then old(added) + [pair] else old(added)
    {
      var l := PairLen(pair) + len;
      if l > MAX_LENGTH {
        return false;
      }
      FitsOneBody(added, pair);
      PairsLenAppend(added, pair);
      StoredAppend(added, pair);
      len := l;
      assert |pair.name| + |pair.value| <= MAX_LENGTH && |pair.name| <= 0x7fffffff && |pair.value| <= 0x7fffffff;
      PushPair(pair);
      added := added + [pair];
      ok := true;
    }

    /** The encoded lengths, the name, and the value if there is one. */
    method PushPair(pair: Pair)
      requires Encodable(pair)
      modifies pairs
      ensures pairs.bufs == old(pairs.bufs) + StoredOne(pair)
    {
      var ln, lv := |pair.name|, |pair.value|;
      var lengths: bytes := if ln > 0x7f then PutU32(ln + 0x8000_0000) else [ln];
      if lv > 0x7f {
        lengths := lengths + PutU32(lv + 0x8000_0000);
      } else {
        lengths := lengths + [lv];
      }
      pairs.Push(lengths);
      pairs.Push(pair.name);
      if lv > 0 {
        pairs.Push(pair.value);
      }
    }

    /** The header of the record of this body; None stands for the panic on a type that carries no pairs. */
    method ToRecord(rtype: RecordType, requestId: u16) returns (h: Option<Header>)
      requires Valid()
      ensures h.Some? <==> rtype in {Params, GetValues, GetValuesResult}
      ensures |EncodePairs(added)| <= MAX_LENGTH
      ensures h.Some? ==> h.value == RecHeader(Rec(rtype, requestId, EncodePairs(added)))
    {
      PairsLenIsSize(added);
      var pad: byte := len % 8;
      if pad != 0 {
        pad := 8 - pad;
      }
      match rtype {
        case Params => h := Some(Header(VERSION_1, rtype, requestId, len, pad));
        case GetValues => h := Some(Header(VERSION_1, rtype, requestId, len, pad));
        case GetValuesResult => h := Some(Header(VERSION_1, rtype, requestId, len, pad));
        case _ => h := None;
      }
    }

    /** The content of this body, emptied into an iterator; None stands for a copy loop that never ends. */
    method Drain() returns (d: Option<NVDrain>)
      requires Valid()
      modifies pairs
      ensures d.None? <==> Clogged(added)
      ensures d.Some? ==> fresh(d.value) && d.value.data == EncodePairs(added) && Flatten(pairs.bufs) == []
    {
      PairsLenIsSize(added);
      StoredIsFlat(added);
      DrainStalls(added);
      var content := pairs.CopyToBytes(len);
      if content.None? {
        return None;
      }
      var it := new NVDrain(content.value);
      d := Some(it);
    }

    /** Drains this body and collects its pairs. */
    method Unload() returns (r: Unpacked)
      requires Valid()
      modifies pairs
      ensures r == UnpackOne(added)
    {
      WrittenDecoderLimits(added);
      var d := Drain();
      if d.None? {
        return Hangs;
      }
      var ps := Collect(d.value);
      r := if ps.None? then Breaks else Pairs(ps.value);
    }
  }

  /** All pairs an iterator yields; None stands for a panic. */
  method Collect(d: NVDrain) returns (r: Option<seq<Pair>>)
    modifies d
    ensures r == ParsePairs(AsWritten, old(d.data))
  {
    var got: seq<Pair> := [];
    assert forall ps: seq<Pair> :: got + ps == ps;
    while true
      invariant ParsePairs(AsWritten, old(d.data))
             == match ParsePairs(AsWritten, d.data) case None => None case Some(ps) => Some(got + ps)
      decreases |d.data|
    {
      var item := d.Next();
      match item {
        case Exhausted =>
          assert got + [] == got;
          return Some(got);
        case Panicked => return None;
        case Item(p) =>
          assert forall ps: seq<Pair> :: got + ([p] + ps) == (got + [p]) + ps;
          got := got + [p];
      }
    }
  }

  predicate Distinct(bodies: seq<NVBody>)
  {
    forall j, k :: 0 <= j < k < |bodies| ==> bodies[j] != bodies[k] && bodies[j].pairs != bodies[k].pairs
  }

  ghost predicate Filled(bodies: seq<NVBody>, parts: seq<seq<Pair>>)
    reads bodies, set b | b in bodies :: b.pairs
  {
    |parts| == |bodies| && forall k :: 0 <= k < |bodies| ==> bodies[k].Valid() && bodies[k].added == parts[k]
  }

  lemma DistinctPush(bodies: seq<NVBody>, nv: NVBody)
    requires Distinct(bodies) && forall b :: b in bodies ==> b != nv && b.pairs != nv.pairs
    ensures Distinct(bodies + [nv])
  {
    assert forall k :: 0 <= k < |bodies| ==> bodies[k] in bodies;
  }

  lemma FilledPush(bodies: seq<NVBody>, parts: seq<seq<Pair>>, nv: NVBody)
    requires Filled(bodies, parts) && nv.Valid()
    ensures Filled(bodies + [nv], parts + [nv.added])
  {}

  lemma FilledSet(bodies: seq<NVBody>, parts: seq<seq<Pair>>, n: nat)
    requires |parts| == |bodies| && n < |bodies| && bodies[n].Valid()
    requires forall k :: 0 <= k < |bodies| && k != n ==> bodies[k].Valid() && bodies[k].added == parts[k]
    ensures Filled(bodies, parts[n := bodies[n].added])
  {}

  /** The pairs of all bodies; a drain that never ends; or a panic of the decoder. */
  datatype Unpacked = Pairs(pairs: seq<Pair>) | Hangs | Breaks

  /** What draining packed bodies one after the other comes to, with the decoder as it is written. */
  function Unpack(parts: seq<seq<Pair>>): Unpacked
  {
    if parts == [] then Pairs([])
    else match UnpackOne(parts[0])
      case Pairs(ps) => Continued(ps, Unpack(parts[1..]))
      case bad => bad
  }

  function UnpackOne(ps: seq<Pair>): Unpacked
  {
    if Clogged(ps) then Hangs else if !AllShort(ps) then Breaks else Pairs(ps)
  }

  /** One more body, after the pairs got from those before it. */
  lemma UnpackFrom(parts: seq<seq<Pair>>, i: nat, got: seq<Pair>)
    requires i <= |parts|
    ensures i == 0 && got == [] ==> Continued(got, Unpack(parts[i..])) == Unpack(parts)
    ensures i == |parts| ==> Continued(got, Unpack(parts[i..])) == Pairs(got)
    ensures i < |parts| ==>
              Continued(got, Unpack(parts[i..]))
              == match UnpackOne(parts[i])
                 case Pairs(ps) => Continued(got + ps, Unpack(parts[i + 1..]))
                 case bad => bad
  {
    if i == |parts| {
      assert parts[i..] == [] && got + [] == got;
    } else {
      assert parts[i..][0] == parts[i] && parts[i..][1..] == parts[i + 1..];
      ContinuedTwice(got, parts[i], Unpack(parts[i + 1..]));
    }
    if i == 0 && got == [] {
      assert parts[i..] == parts;
      assert Unpack(parts).Pairs? ==> [] + Unpack(parts).pairs == Unpack(parts).pairs;
    }
  }

  function Continued(got: seq<Pair>, rest: Unpacked): Unpacked
  {
    match rest case Pairs(ps) => Pairs(got + ps) case _ => rest
  }

  lemma ContinuedTwice(a: seq<Pair>, b: seq<Pair>, rest: Unpacked)
    ensures Continued(a + b, rest) == Continued(a, Continued(b, rest))
  {
    if rest.Pairs? {
      assert a + b + rest.pairs == a + (b + rest.pairs);
    }
  }

  predicate NoneClogged(parts: seq<seq<Pair>>)
  {
    forall k :: 0 <= k < |parts| ==> !Clogged(parts[k])
  }

  /** Draining returns exactly the packed pairs if and only if no body clogs and all pairs are short. */
  lemma {:induction false} UnpackReturnsPairs(parts: seq<seq<Pair>>)
    ensures Unpack(parts) == Pairs(Joined(parts)) <==> NoneClogged(parts) && AllShort(Joined(parts))
    ensures Unpack(parts).Pairs? ==> Unpack(parts) == Pairs(Joined(parts))
  {
    if parts != [] {
      UnpackReturnsPairs(parts[1..]);
      assert forall p :: p in Joined(parts) <==> p in parts[0] || p in Joined(parts[1..]);
      assert NoneClogged(parts) <==> !Clogged(parts[0]) && NoneClogged(parts[1..]);
    }
  }

  /** A new body with one pair. */
  method BodyOf(pair: Pair) returns (nv: NVBody)
    requires PairLen(pair) <= MAX_LENGTH
    ensures fresh(nv) && fresh(nv.pairs) && nv.Valid() && nv.added == [pair]
  {
    nv := new NVBody();
    var ok := nv.Add(pair);
    assert ok;
  }

  class NVBodyList {
    var bodies: seq<NVBody>
    /** The pairs held, body by body. */
    ghost var parts: seq<seq<Pair>>

    ghost predicate Valid()
      reads this, bodies, set b | b in bodies :: b.pairs
    {
      bodies != [] && Distinct(bodies) && Filled(bodies, parts)
    }

    constructor ()
      ensures Valid() && parts == [[]]
      ensures forall b :: b in bodies ==> fresh(b) && fresh(b.pairs)
    {
      var b := new NVBody();
      bodies := [b];
      parts := [[]];
    }

    method Add(pair: Pair)
      requires Valid() && PairLen(pair) <= MAX_LENGTH
      modifies this, bodies, set b | b in bodies :: b.pairs
      ensures Valid() && parts == Pack(old(parts), pair)
      ensures old(PairsLen(parts[|parts| - 1])) + PairLen(pair) <= 0xffff <==> |parts| == |old(parts)|
      ensures forall b :: b in bodies ==> b in old(bodies) || (fresh(b) && fresh(b.pairs))
    {
      var nv := bodies[|bodies| - 1];
      var fits := nv.Fits(pair);
      if fits {
        AddToLast(pair);
      } else {
        AddToNew(pair);
      }
    }

    method AddToLast(pair: Pair)
      requires Valid()
      requires PairsLen(parts[|parts| - 1]) + PairLen(pair) <= MAX_LENGTH
      modifies this`parts, bodies, set b | b in bodies :: b.pairs
      ensures Valid() && parts == Pack(old(parts), pair) && bodies == old(bodies)
    {
      var n := |bodies| - 1;
      var ok := bodies[n].Add(pair);
      assert ok;
      forall k | 0 <= k < n
        ensures bodies[k].Valid() && bodies[k].added == parts[k]
      {
        assert old(bodies[k].Valid());
      }
      FilledSet(bodies, parts, n);
      parts := parts[n := parts[n] + [pair]];
    }

    method AddToNew(pair: Pair)
      requires Valid() && PairLen(pair) <= MAX_LENGTH
      modifies this
      ensures Valid() && parts == old(parts) + [[pair]]
      ensures |bodies| == |old(bodies)| + 1 && bodies[..|old(bodies)|] == old(bodies)
      ensures fresh(bodies[|old(bodies)|]) && fresh(bodies[|old(bodies)|].pairs)
    {
      var nv := BodyOf(pair);
      assert Filled(bodies, parts);
      DistinctPush(bodies, nv);
      FilledPush(bodies, parts, nv);
      bodies := bodies + [nv];
      parts := parts + [[pair]];
    }

    /** Adds all pairs in order. */
    method Extend(ps: seq<Pair>)
      requires Valid() && Packable(ps)
      modifies this, bodies, set b | b in bodies :: b.pairs
      ensures Valid() && parts == PackAll(old(parts), ps)
    {
      for i := 0 to |ps|
        invariant Valid() && parts == PackAll(old(parts), ps[..i])
        invariant forall b :: b in bodies ==> b in old(bodies) || (fresh(b) && fresh(b.pairs))
      {
        PackNext(old(parts), ps, i);
        Add(ps[i]);
      }
      assert ps[..|ps|] == ps;
    }

    /** Drains the bodies one after the other and collects their pairs. */
    method DrainAll() returns (r: Unpacked)
      requires Valid()
      modifies set b | b in bodies :: b.pairs
      ensures r == Unpack(parts)
    {
      var got := [];
      ghost var all, target := parts, Unpack(parts);
      UnpackFrom(all, 0, got);
      for i := 0 to |bodies|
        invariant forall k :: i <= k < |bodies| ==> bodies[k].Valid() && bodies[k].added == all[k]
        invariant Continued(got, Unpack(all[i..])) == target
      {
        UnpackFrom(all, i, got);
        var one := bodies[i].Unload();
        if !one.Pairs? {
          return one;
        }
        got := got + one.pairs;
      }
      UnpackFrom(all, |bodies|, got);
      r := Pairs(got);
    }
  }

  /** A list made from nothing but the given pairs. */
  method FromIter(ps: seq<Pair>) returns (nv: NVBodyList)
    requires Packable(ps)
    ensures fresh(nv) && nv.Valid() && nv.parts == PackAll([[]], ps)
    ensures AllBodies(nv.parts) && Joined(nv.parts) == ps && Tight(nv.parts)
  {
    nv := new NVBodyList();
    PackThenDrain(ps);
    nv.Extend(ps);
  }
}
