/** Name-value pairs (FastCGI 1.0, section 3.4). */
module NameValue {
  import opened Octets

  const MAX_PART: nat := 0x7fff_ffff

  datatype Pair = Pair(name: bytes, value: bytes)

  predicate Encodable(p: Pair)
  {
    |p.name| <= MAX_PART && |p.value| <= MAX_PART
  }

  predicate AllEncodable(ps: seq<Pair>)
  {
    forall p :: p in ps ==> Encodable(p)
  }

  /** Both lengths fit the one-byte form. */
  predicate Short(p: Pair)
  {
    |p.name| <= 0x7f && |p.value| <= 0x7f
  }

  predicate AllShort(ps: seq<Pair>)
  {
    forall p :: p in ps ==> Short(p)
  }

  function EncodeLength(n: nat): (r: bytes)
    requires n <= MAX_PART
    ensures |r| == if n > 0x7f then 4 else 1
  {
    if n > 0x7f then PutU32(n + 0x8000_0000) else [n]
  }

  function EncodePair(p: Pair): bytes
    requires Encodable(p)
  {
    EncodeLength(|p.name|) + EncodeLength(|p.value|) + p.name + p.value
  }

  function EncodePairs(ps: seq<Pair>): bytes
    requires AllEncodable(ps)
  {
    if ps == [] then [] else EncodePair(ps[0]) + EncodePairs(ps[1..])
  }

  lemma {:induction false} EncodePairsAppend(a: seq<Pair>, b: seq<Pair>)
    requires AllEncodable(a) && AllEncodable(b)
    ensures AllEncodable(a + b)
    ensures EncodePairs(a + b) == EncodePairs(a) + EncodePairs(b)
  {
    if a == [] {
      assert a + b == b;
    } else {
      assert (a + b)[1..] == a[1..] + b;
      EncodePairsAppend(a[1..], b);
    }
  }

  /** The size of a pair as it is computed before packing. */
  function PairLen(p: Pair): nat
  {
    var lf := |p.name| + |p.value| + 2;
    var lf1 := if |p.name| > 0x7f then lf + 3 else lf;
    if |p.value| > 0x7f then lf1 + 3 else lf1
  }

  lemma PairLenIsSize(p: Pair)
    requires Encodable(p)
    ensures |EncodePair(p)| == PairLen(p)
  {}

  // ---------- decoding ----------

  /** The decoder as it is written, and the one that the specification asks for. */
  datatype Decoder = AsWritten | Specified

  /**
   * A length and the position behind it; None stands for a panic. As written, a four-byte length is read from
   * a slice of three bytes, which always panics.
   */
  function LengthAt(dec: Decoder, data: bytes, pos: nat): (r: Option<(nat, nat)>)
    ensures r.Some? ==> pos < r.value.1 <= |data|
  {
    if pos >= |data| then None
    else if data[pos] < 0x80 then Some((data[pos] as nat, pos + 1))
    else if pos + 4 > |data| || dec == AsWritten then None
    else Some((GetU32(data[pos..]) % 0x8000_0000, pos + 4))
  }

  function ParsePair(dec: Decoder, data: bytes): (r: Option<(Pair, bytes)>)
    ensures r.Some? ==> |r.value.1| < |data|
  {
    match LengthAt(dec, data, 0)
    case None => None
    case Some((keyLength, p1)) =>
      match LengthAt(dec, data, p1)
      case None => None
      case Some((valueLength, p2)) =>
        var p3 := p2 + keyLength;
        var p4 := p3 + valueLength;
        if p4 > |data| then None else Some((Pair(data[p2..p3], data[p3..p4]), data[p4..]))
  }

  function ParsePairs(dec: Decoder, data: bytes): Option<seq<Pair>>
    decreases |data|
  {
    if data == [] then Some([])
    else match ParsePair(dec, data)
      case None => None
      case Some((p, rest)) =>
        match ParsePairs(dec, rest) case None => None case Some(ps) => Some([p] + ps)
  }

  datatype Drawn = Exhausted | Item(pair: Pair) | Panicked

  /** The iterator over a drained body. */
  class NVDrain {
    var data: bytes

    constructor (content: bytes)
      ensures data == content
    {
      data := content;
    }

    method Next() returns (r: Drawn)
      modifies this
      ensures old(data) == [] ==> r == Exhausted && data == []
      ensures old(data) != [] ==>
                match ParsePair(AsWritten, old(data))
                case None => r == Panicked
                case Some((p, rest)) => r == Item(p) && data == rest
    {
      if data == [] {
        return Exhausted;
      }
      var pos := 0;
      var keyLength := LengthAt(AsWritten, data, pos);
      if keyLength.None? {
        return Panicked;
      }
      pos := keyLength.value.1;
      var valueLength := LengthAt(AsWritten, data, pos);
      if valueLength.None? {
        return Panicked;
      }
      pos := valueLength.value.1;
      if pos + keyLength.value.0 + valueLength.value.0 > |data| {
        return Panicked;
      }
      var key := data[pos..pos + keyLength.value.0];
      pos := pos + keyLength.value.0;
      var value := data[pos..pos + valueLength.value.0];
      pos := pos + valueLength.value.0;
      data := data[pos..];
      r := Item(Pair(key, value));
    }
  }

  lemma LengthRoundTrip(dec: Decoder, before: bytes, n: nat, after: bytes)
    requires n <= MAX_PART
    ensures LengthAt(dec, before + EncodeLength(n) + after, |before|)
         == if n > 0x7f && dec == AsWritten then None else Some((n, |before| + |EncodeLength(n)|))
  {
    var data := before + EncodeLength(n) + after;
    assert data[|before|..] == EncodeLength(n) + after;
    assert data[|before|] == EncodeLength(n)[0];
    if n > 0x7f {
      U32RoundTrip(n + 0x8000_0000, after);
    }
  }

  lemma PairRoundTrip(dec: Decoder, p: Pair, rest: bytes)
    requires Encodable(p)
    ensures ParsePair(dec, EncodePair(p) + rest)
         == if dec == Specified || Short(p) then Some((p, rest)) else None
  {
    var a, b := EncodeLength(|p.name|), EncodeLength(|p.value|);
    var data := EncodePair(p) + rest;
    assert data == [] + a + (b + p.name + p.value + rest);
    LengthRoundTrip(dec, [], |p.name|, b + p.name + p.value + rest);
    assert data == a + b + (p.name + p.value + rest);
    LengthRoundTrip(dec, a, |p.value|, p.name + p.value + rest);
    Slices(a + b, p.name, p.value, rest);
    assert data == a + b + p.name + p.value + rest;
  }

  lemma Slices(a: bytes, x: bytes, y: bytes, z: bytes)
    ensures var all, n, m := a + x + y + z, |a|, |a| + |x|;
            all[n..m] == x && all[m..m + |y|] == y && all[m + |y|..] == z
  {}

  /** Section 3.4's decoder inverts the encoder on every list of pairs the encoder accepts. */
  lemma {:induction false} PairsRoundTrip(ps: seq<Pair>)
    requires AllEncodable(ps)
    ensures ParsePairs(Specified, EncodePairs(ps)) == Some(ps)
  {
    if ps != [] {
      PairRoundTrip(Specified, ps[0], EncodePairs(ps[1..]));
      PairsRoundTrip(ps[1..]);
      assert EncodePairs(ps) != [] && [ps[0]] + ps[1..] == ps;
    }
  }

  /** The decoder as written inverts it exactly on lists of short pairs, and panics on every other list. */
  lemma {:induction false} WrittenDecoderLimits(ps: seq<Pair>)
    requires AllEncodable(ps)
    ensures ParsePairs(AsWritten, EncodePairs(ps)) == Some(ps) <==> AllShort(ps)
    ensures ParsePairs(AsWritten, EncodePairs(ps)) == None <==> !AllShort(ps)
  {
    if ps != [] {
      PairRoundTrip(AsWritten, ps[0], EncodePairs(ps[1..]));
      WrittenDecoderLimits(ps[1..]);
      assert EncodePairs(ps) != [] && [ps[0]] + ps[1..] == ps;
      assert forall p :: p in ps <==> p == ps[0] || p in ps[1..];
    }
  }

  lemma WrittenPairSound(data: bytes)
    ensures ParsePair(AsWritten, data).Some? ==> ParsePair(Specified, data) == ParsePair(AsWritten, data)
  {
    var first := LengthAt(AsWritten, data, 0);
    assert first.Some? ==> LengthAt(Specified, data, 0) == first;
    if first.Some? {
      var second := LengthAt(AsWritten, data, first.value.1);
      assert second.Some? ==> LengthAt(Specified, data, first.value.1) == second;
    }
  }

  /** On any bytes at all, where the decoder as written succeeds it agrees with the specification. */
  lemma {:induction false} WrittenDecoderSound(data: bytes)
    ensures ParsePairs(AsWritten, data).Some? ==> ParsePairs(Specified, data) == ParsePairs(AsWritten, data)
    decreases |data|
  {
    WrittenPairSound(data);
    if data != [] && ParsePair(AsWritten, data).Some? {
      WrittenDecoderSound(ParsePair(AsWritten, data).value.1);
    }
  }

  /** A pair whose value needs 128 bytes: encoded as the specification says, not decodable as written. */
  lemma LongValuePanics(value: bytes)
    requires |value| == 0x80
    ensures var p := Pair([0x4e], value);
            ParsePair(AsWritten, EncodePair(p)) == None && ParsePair(Specified, EncodePair(p)) == Some((p, []))
  {
    var p := Pair([0x4e], value);
    PairRoundTrip(AsWritten, p, []);
    PairRoundTrip(Specified, p, []);
    assert EncodePair(p) + [] == EncodePair(p);
  }
}
