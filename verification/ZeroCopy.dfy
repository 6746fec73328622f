/** BufferZeroCopyInputStream: a cursor over a list of memory pieces, seen as one over flat text. */
module ZeroCopy {
  import opened Common
  import opened Chunks

  type byte = bv8

  /** A size_t stored in an int. */
  function Int32(n: nat): int {
    var low := n % 0x1_0000_0000;
    if low < 0x8000_0000 then low else low - 0x1_0000_0000
  }

  /** How many bytes lie before the piece. */
  function Before(iovs: seq<seq<byte>>, k: nat): nat
    requires k <= |iovs|
  {
    |Flatten(iovs[..k])|
  }

  lemma BeforeNext(iovs: seq<seq<byte>>, k: nat)
    requires k < |iovs|
    ensures Before(iovs, k + 1) == Before(iovs, k) + |iovs[k]|
    ensures Before(iovs, k) + |iovs[k]| <= |Flatten(iovs)|
    ensures Flatten(iovs)[Before(iovs, k)..Before(iovs, k) + |iovs[k]|] == iovs[k]
  {
    FlattenSnoc(iovs, k);
    FlattenSplit(iovs, k + 1);
    assert Flatten(iovs)[..Before(iovs, k + 1)] == Flatten(iovs[..k]) + iovs[k];
  }

  lemma BeforeAll(iovs: seq<seq<byte>>)
    ensures Before(iovs, |iovs|) == |Flatten(iovs)|
  {
    assert iovs[..|iovs|] == iovs;
  }

  /** The cursor stands `at` bytes into the flat text. */
  predicate Stands(iovs: seq<seq<byte>>, cur: nat, off: nat, at: int) {
    && cur <= |iovs|
    && (if cur < |iovs| then off <= |iovs[cur]| else off == 0)
    && at == Before(iovs, cur) + off
  }

  lemma StandsInside(iovs: seq<seq<byte>>, cur: nat, off: nat, at: int)
    requires Stands(iovs, cur, off, at)
    ensures 0 <= at <= |Flatten(iovs)|
    ensures cur == |iovs| ==> at == |Flatten(iovs)|
    ensures cur < |iovs| ==>
      && at + |iovs[cur]| - off <= |Flatten(iovs)|
      && Flatten(iovs)[at..at + |iovs[cur]| - off] == iovs[cur][off..]
      && Stands(iovs, cur + 1, 0, at + |iovs[cur]| - off)
  {
    if cur < |iovs| {
      BeforeNext(iovs, cur);
      var lo := Before(iovs, cur);
      assert Flatten(iovs)[at..lo + |iovs[cur]|] == Flatten(iovs)[lo..lo + |iovs[cur]|][off..];
    } else {
      BeforeAll(iovs);
    }
  }

  class BufferZeroCopyInputStream {
    const iovs: seq<seq<byte>>
    var currentIov: nat
    var currentIovOffset: nat
    var complete: int
    ghost var at: int      // where the cursor stands in the flat text

    /** The count never runs ahead of the position; it may fall behind. */
    ghost predicate Valid()
      reads this
    {
      Stands(iovs, currentIov, currentIovOffset, at) && complete <= at
    }

    function Text(): seq<byte> { Flatten(iovs) }

    constructor (pieces: seq<seq<byte>>)
      ensures Valid() && iovs == pieces && complete == at == 0
      ensures currentIov == currentIovOffset == 0
    {
      iovs, currentIov, currentIovOffset, complete, at := pieces, 0, 0, 0, 0;
    }

    /** The bytes at the position, and only at the end none; the position moves behind them. Their
        number is handed out as an int, and the count stays with the position exactly if
        it fits. */
    method Next() returns (ok: bool, data: seq<byte>, size: int)
      requires Valid()
      modifies this
      ensures Valid() && 0 <= old(at) && at == old(at) + |data| <= |Text()|
      ensures data == Text()[old(at)..at] && size == Int32(|data|)
      ensures complete - old(complete) == at - old(at) <==> |data| < 0x8000_0000
      ensures complete == old(complete) + size
      ensures !ok ==> data == [] && at == |Text()|
      ensures ok <==> old(currentIov) < |iovs|
      ensures currentIov == old(currentIov) + (if ok then 1 else 0) && (ok ==> currentIovOffset == 0)
      ensures ok ==> data == iovs[old(currentIov)][old(currentIovOffset)..]
    {
      StandsInside(iovs, currentIov, currentIovOffset, at);
      if currentIov >= |iovs| { return false, [], 0; }
      data := iovs[currentIov][currentIovOffset..];
      size := Int32(|iovs[currentIov]| - currentIovOffset);
      LengthFitsIff(|data|);
      complete := complete + size;
      at := at + |data|;
      currentIovOffset := 0;
      currentIov := currentIov + 1;
      StandsInside(iovs, currentIov, currentIovOffset, at);
      ok := true;
    }

    /** The position moves back, over empty pieces if need be, and the count with it. */
    method BackUp(count: nat)
      requires Valid() && count <= complete
      modifies this
      ensures Valid() && at == old(at) - count && complete == old(complete) - count
      ensures currentIov <= old(currentIov)
      ensures count > 0 ==> currentIov < |iovs| && currentIovOffset < |iovs[currentIov]|
    {
      complete := complete - count;
      at := at - count;
      var left := count;
      while left > 0
        invariant Stands(iovs, currentIov, currentIovOffset, at + left)
        invariant 0 <= left && complete == old(complete) - count && at == old(at) - count
        invariant currentIov <= old(currentIov)
        invariant left == 0 && count > 0 ==> currentIov < |iovs| && currentIovOffset < |iovs[currentIov]|
        decreases currentIov, currentIovOffset
      {
        if currentIovOffset == 0 {
          assert currentIov > 0;
          BeforeNext(iovs, currentIov - 1);
          currentIov := currentIov - 1;
          currentIovOffset := |iovs[currentIov]|;
        }
        var todo := Min(currentIovOffset, left);
        currentIovOffset := currentIovOffset - todo;
        left := left - todo;
      }
    }

    /** The position moves forward, as far as there is text, and the count with it. */
    method Skip(count: nat) returns (ok: bool)
      requires Valid()
      modifies this
      ensures Valid() && complete - old(complete) == at - old(at)
      ensures ok <==> old(at) + count <= |Text()|
      ensures at == if ok then old(at) + count else |Text()|
    {
      var left := count;
      StandsInside(iovs, currentIov, currentIovOffset, at);
      while left > 0
        invariant Stands(iovs, currentIov, currentIovOffset, at) && complete - old(complete) == at - old(at)
        invariant 0 <= left && at + left == old(at) + count && at <= |Text()|
        decreases |iovs| - currentIov, left
      {
        StandsInside(iovs, currentIov, currentIovOffset, at);
        if currentIov >= |iovs| { return false; }
        var todo := Min(|iovs[currentIov]| - currentIovOffset, left);
        currentIovOffset := currentIovOffset + todo;
        left := left - todo;
        complete := complete + todo;
        at := at + todo;
        if currentIovOffset == |iovs[currentIov]| {
          StandsInside(iovs, currentIov, currentIovOffset, at);
          currentIovOffset := 0;
          currentIov := currentIov + 1;
        }
      }
      ok := true;
    }

    method ByteCount() returns (n: int)
      requires Valid()
      ensures n == complete <= at <= |Text()|
    {
      StandsInside(iovs, currentIov, currentIovOffset, at);
      n := complete;
    }
  }

  /** An int holds a length exactly below 2^31, and never more than the length. */
  lemma LengthFitsIff(n: nat)
    ensures Int32(n) == n <==> n < 0x8000_0000
    ensures Int32(n) <= n
  {
  }

  /** A piece of 2^31 bytes is counted as so many bytes less than nothing. */
  method LargePieceMiscounted() returns (size: int, count: int)
    ensures size == -0x8000_0000 && count == -0x8000_0000
  {
    var stream := new BufferZeroCopyInputStream([seq(0x8000_0000, _ => 0)]);
    var ok, data;
    ok, data, size := stream.Next();
    count := stream.ByteCount();
  }

  lemma {:induction false} BeforeGrows(iovs: seq<seq<byte>>, j: nat, k: nat)
    requires j <= k <= |iovs|
    ensures Before(iovs, j) <= Before(iovs, k)
  {
    if j < k { BeforeGrows(iovs, j, k - 1); BeforeNext(iovs, k - 1); }
  }

  /** A byte of the flat text lies in one piece only. */
  lemma OnePlace(iovs: seq<seq<byte>>, j: nat, x: nat, k: nat, y: nat, at: int)
    requires Stands(iovs, j, x, at) && Stands(iovs, k, y, at)
    requires j < |iovs| && x < |iovs[j]| && k < |iovs| && y < |iovs[k]|
    ensures j == k && x == y
  {
    if j < k { BeforeNext(iovs, j); BeforeGrows(iovs, j + 1, k); }
    if k < j { BeforeNext(iovs, k); BeforeGrows(iovs, k + 1, j); }
  }

  /** Handing back the last k bytes makes Next() deliver exactly these again, and leaves the
      position where it was. */
  method Reread(stream: BufferZeroCopyInputStream, k: nat) returns (first: seq<byte>, again: seq<byte>)
    requires stream.Valid()
    modifies stream
    ensures stream.Valid()
    ensures 0 < k <= |first| && k <= old(stream.complete) + Int32(|first|) ==>
              again == first[|first| - k..] && stream.at == old(stream.at) + |first|
  {
    var ok, size;
    ok, first, size := stream.Next();
    again := [];
    if 0 < k <= |first| && k <= stream.complete {
      ghost var cur := old(stream.currentIov);
      ghost var off := |stream.iovs[cur]| - k;
      stream.BackUp(k);
      BeforeNext(stream.iovs, cur);
      OnePlace(stream.iovs, cur, off, stream.currentIov, stream.currentIovOffset, stream.at);
      ok, again, size := stream.Next();
    }
  }

  // ----- a reader that believes the lengths -----

  predicate Fits(pieces: seq<seq<byte>>) { forall i :: 0 <= i < |pieces| ==> |pieces[i]| < 0x8000_0000 }

  /** What a caller of Next() can use of a piece. */
  function Usable(piece: seq<byte>): (r: seq<byte>)
    ensures |r| <= |piece| && (r == piece <==> |piece| < 0x8000_0000)
  {
    LengthFitsIff(|piece|);
    if Int32(|piece|) >= 0 then piece[..Int32(|piece|)] else []
  }

  function UsableOf(pieces: seq<seq<byte>>): seq<byte> {
    if pieces == [] then [] else Usable(pieces[0]) + UsableOf(pieces[1..])
  }

  lemma {:induction false} UsableIff(pieces: seq<seq<byte>>)
    ensures |UsableOf(pieces)| <= |Flatten(pieces)|
    ensures UsableOf(pieces) == Flatten(pieces) <==> Fits(pieces)
  {
    if pieces != [] {
      var p, rest := pieces[0], pieces[1..];
      UsableIff(rest);
      assert Fits(pieces) <==> |p| < 0x8000_0000 && Fits(rest) by {
        assert forall i :: 0 < i < |pieces| ==> pieces[i] == rest[i - 1];
        assert forall i :: 0 <= i < |rest| ==> rest[i] == pieces[i + 1];
      }
      if UsableOf(pieces) == Flatten(pieces) {
        assert |Usable(p)| == |p|;
        assert (Usable(p) + UsableOf(rest))[..|p|] == (p + Flatten(rest))[..|p|];
        assert (Usable(p) + UsableOf(rest))[|p|..] == (p + Flatten(rest))[|p|..];
      }
    }
  }

  /** A reader that takes as many bytes from each piece as it is told gets the whole text exactly if
      every piece is smaller than 2^31 bytes. */
  method ReadAll(pieces: seq<seq<byte>>) returns (text: seq<byte>)
    ensures text == Flatten(pieces) <==> Fits(pieces)
  {
    var stream := new BufferZeroCopyInputStream(pieces);
    text := [];
    assert pieces[0..] == pieces;
    var more := true;
    while more
      invariant fresh(stream) && stream.Valid() && stream.iovs == pieces && stream.currentIovOffset == 0
      invariant text + UsableOf(pieces[stream.currentIov..]) == UsableOf(pieces)
      invariant !more ==> stream.currentIov == |pieces|
      decreases |pieces| - stream.currentIov, more
    {
      var data, size;
      ghost var cur := stream.currentIov;
      more, data, size := stream.Next();
      if more {
        assert data == pieces[cur] && pieces[cur..][0] == pieces[cur] && pieces[cur..][1..] == pieces[cur + 1..];
        text := text + (if size >= 0 then data[..size] else []);
      }
    }
    assert pieces[|pieces|..] == [];
    UsableIff(pieces);
  }
}
