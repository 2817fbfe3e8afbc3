/** The queue of byte buffers under every request and every name-value body. */
module BufVec {
  import opened Octets

  function Total(bufs: seq<bytes>): nat
  {
    if bufs == [] then 0 else |bufs[0]| + Total(bufs[1..])
  }

  lemma {:induction false} TotalIsLength(bufs: seq<bytes>)
    ensures Total(bufs) == |Flatten(bufs)|
  {
    if bufs != [] {
      TotalIsLength(bufs[1..]);
    }
  }

  function Front(bufs: seq<bytes>): bytes
  {
    if bufs == [] then [] else bufs[0]
  }

  /** What is left of a buffer list after cnt bytes, as a list. */
  function Dropped(bufs: seq<bytes>, cnt: nat): seq<bytes>
  {
    if cnt == 0 || bufs == [] then bufs
    else if |bufs[0]| > cnt then [bufs[0][cnt..]] + bufs[1..]
    else Dropped(bufs[1..], cnt - |bufs[0]|)
  }

  /** Dropping from the list is dropping from the flat queue, and leaves no empty buffer behind. */
  lemma {:induction false} DroppedIsFlat(bufs: seq<bytes>, cnt: nat)
    ensures Flatten(Dropped(bufs, cnt)) == Flatten(bufs)[if cnt <= |Flatten(bufs)| then cnt else |Flatten(bufs)|..]
    ensures NoEmpty(bufs) ==> NoEmpty(Dropped(bufs, cnt))
  {
    if cnt == 0 || bufs == [] {
    } else if |bufs[0]| > cnt {
      var d := Dropped(bufs, cnt);
      assert d[1..] == bufs[1..];
      assert forall k :: 1 <= k < |d| ==> d[k] == bufs[k];
    } else {
      DroppedIsFlat(bufs[1..], cnt - |bufs[0]|);
    }
  }

  /**
   * The first chunk of a nonempty queue is empty exactly when an empty buffer stands in front, and then
   * consuming that chunk changes nothing: a copy loop would never end.
   */
  lemma EmptyHeadStalls(bufs: seq<bytes>)
    requires Flatten(bufs) != []
    ensures Front(bufs) == [] <==> bufs[0] == []
    ensures Front(bufs) == [] <==> Flatten(Dropped(bufs, |Front(bufs)|)) == Flatten(bufs)
    ensures Front(bufs) == [] ==> Dropped(bufs, |Front(bufs)|) == bufs
    ensures NoEmpty(bufs) ==> Front(bufs) != []
  {
    DroppedIsFlat(bufs, |Front(bufs)|);
  }

  /** An empty buffer is reached before len bytes are taken: a loop that copies chunk by chunk never ends. */
  predicate Stalls(bufs: seq<bytes>, len: nat)
  {
    && len > 0 && bufs != []
    && (bufs[0] == [] || (|bufs[0]| < len && Stalls(bufs[1..], len - |bufs[0]|)))
  }

  lemma {:induction false} NoEmptyNoStall(bufs: seq<bytes>, len: nat)
    requires NoEmpty(bufs)
    ensures !Stalls(bufs, len)
    decreases |bufs|
  {
    if bufs != [] && |bufs[0]| < len {
      NoEmptyNoStall(bufs[1..], len - |bufs[0]|);
    }
  }

  class BufList {
    var bufs: seq<bytes>

    constructor ()
      ensures bufs == []
    {
      bufs := [];
    }

    method Push(buf: bytes)
      modifies this
      ensures bufs == old(bufs) + [buf]
    {
      bufs := bufs + [buf];
    }

    method Oldest() returns (r: Option<bytes>)
      modifies this
      ensures old(bufs) == [] ==> r == None && bufs == []
      ensures old(bufs) != [] ==> r.Some? && [r.value] + bufs == old(bufs)
    {
      if bufs == [] {
        return None;
      }
      r := Some(bufs[0]);
      bufs := bufs[1..];
    }

    function Remaining(): (n: nat)
      reads this
      ensures n == |Flatten(bufs)|
    {
      TotalIsLength(bufs);
      Total(bufs)
    }

    function Chunk(): bytes
      reads this
    {
      Front(bufs)
    }

    method Advance(count: nat)
      modifies this
      ensures bufs == Dropped(old(bufs), count)
    {
      var cnt: nat := count;
      while cnt > 0
        invariant Dropped(bufs, cnt) == Dropped(old(bufs), count)
        decreases |bufs|
      {
        if bufs == [] {
          return;
        }
        var rem := |bufs[0]|;
        if rem > cnt {
          bufs := [bufs[0][cnt..]] + bufs[1..];
          return;
        }
        cnt := cnt - rem;
        bufs := bufs[1..];
      }
    }

    /**
     * Copies chunk by chunk. None stands for a loop that never ends: an empty chunk is consumed again and again
     * while bytes remain.
     */
    method CopyToBytes(len: nat) returns (r: Option<bytes>)
      requires len <= |Flatten(bufs)|
      modifies this
      ensures r.None? <==> Stalls(old(bufs), len)
      ensures r.Some? ==> r.value == Flatten(old(bufs))[..len] && Flatten(bufs) == Flatten(old(bufs))[len..]
    {
      var got := [];
      ghost var all := Flatten(bufs);
      while |got| < len
        invariant |got| <= len <= |all|
        invariant got == all[..|got|] && Flatten(bufs) == all[|got|..]
        invariant Stalls(bufs, len - |got|) <==> Stalls(old(bufs), len)
        decreases len - |got|
      {
        EmptyHeadStalls(bufs);
        var c := Chunk();
        if c == [] {
          return None;
        }
        var n := if |c| <= len - |got| then |c| else len - |got|;
        DroppedIsFlat(bufs, n);
        assert c == Flatten(bufs)[..|c|];
        assert got + c[..n] == all[..|got| + n];
        Advance(n);
        got := got + c[..n];
      }
      r := Some(got);
    }
  }
}
