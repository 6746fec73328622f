/** Names shared by every part of the model. */
module Common {

  datatype Option<+T> = None | Some(value: T)

  /** A fiber, an operating-system thread, a scheduler and a synchronization
      object are told apart by number; nothing depends on the numbers chosen. */
  type Fid = nat
  type Tid = nat
  type Sid = nat
  type Oid = nat

  function Min(a: int, b: int): int { if a <= b then a else b }
}

/** Input that lies in several pieces of memory, read as one text. */
module Chunks {

  function Flatten<T>(chunks: seq<seq<T>>): seq<T> {
    if chunks == [] then [] else chunks[0] + Flatten(chunks[1..])
  }

  lemma {:induction false} FlattenSplit<T>(chunks: seq<seq<T>>, k: nat)
    requires k <= |chunks|
    ensures Flatten(chunks[..k]) + Flatten(chunks[k..]) == Flatten(chunks)
  {
    if k > 0 {
      FlattenSplit(chunks[1..], k - 1);
      assert chunks[1..][..k - 1] == chunks[..k][1..];
      assert chunks[1..][k - 1..] == chunks[k..];
    }
  }

  lemma FlattenSnoc<T>(chunks: seq<seq<T>>, k: nat)
    requires k < |chunks|
    ensures Flatten(chunks[..k + 1]) == Flatten(chunks[..k]) + chunks[k]
  {
    FlattenSplit(chunks[..k + 1], k);
    assert chunks[..k + 1][..k] == chunks[..k] && chunks[..k + 1][k..] == [chunks[k]];
    assert Flatten([chunks[k]]) == chunks[k] + Flatten<T>([]);
  }
}

/** Adding up a weight over a sequence. */
module Tally {

  function Sum<T>(s: seq<T>, w: T -> nat): nat {
    if s == [] then 0 else w(s[0]) + Sum(s[1..], w)
  }

  lemma {:induction false} SumUpdate<T>(s: seq<T>, i: nat, x: T, w: T -> nat)
    requires i < |s|
    ensures Sum(s[i := x], w) + w(s[i]) == Sum(s, w) + w(x)
  {
    if i == 0 { assert s[i := x][1..] == s[1..]; }
    else { assert s[i := x][1..] == s[1..][i - 1 := x]; SumUpdate(s[1..], i - 1, x, w); }
  }

  lemma {:induction false} SumBelow<T>(s: seq<T>, v: T -> nat, w: T -> nat)
    requires forall i :: 0 <= i < |s| ==> v(s[i]) <= w(s[i])
    ensures Sum(s, v) <= Sum(s, w)
  {
    if s != [] {
      assert forall i :: 0 <= i < |s| - 1 ==> s[1..][i] == s[i + 1];
      SumBelow(s[1..], v, w);
    }
  }

  /** A sum of zeros and ones reaches the length exactly when every element counts. */
  lemma {:induction false} SumFull<T>(s: seq<T>, w: T -> nat)
    requires forall i :: 0 <= i < |s| ==> w(s[i]) <= 1
    ensures Sum(s, w) <= |s|
    ensures Sum(s, w) == |s| <==> forall i :: 0 <= i < |s| ==> w(s[i]) == 1
  {
    if s != [] {
      assert forall i :: 0 <= i < |s| - 1 ==> s[1..][i] == s[i + 1];
      assert forall i :: 0 < i < |s| ==> s[i] == s[1..][i - 1];
      SumFull(s[1..], w);
    }
  }

  lemma {:induction false} SumSame<T>(s: seq<T>, s': seq<T>, w: T -> nat)
    requires |s| == |s'| && forall i :: 0 <= i < |s| ==> w(s[i]) == w(s'[i])
    ensures Sum(s, w) == Sum(s', w)
  {
    if s != [] {
      assert forall i :: 0 <= i < |s| - 1 ==> s[1..][i] == s[i + 1] && s'[1..][i] == s'[i + 1];
      SumSame(s[1..], s'[1..], w);
    }
  }

  lemma {:induction false} SumZero<T>(s: seq<T>, w: T -> nat)
    ensures Sum(s, w) == 0 <==> forall i :: 0 <= i < |s| ==> w(s[i]) == 0
  {
    if s != [] {
      assert forall i :: 0 <= i < |s| - 1 ==> s[1..][i] == s[i + 1];
      assert forall i :: 0 < i < |s| ==> s[i] == s[1..][i - 1];
      SumZero(s[1..], w);
    }
  }
}

/** Quotients and remainders by explicit factors. */
module Division {
  lemma MulLe(x: int, y: int, z: int)
    requires x <= y && 0 <= z
    ensures x * z <= y * z
  {
    assert (y - x) * z >= 0;
  }

  lemma NoGap(k: int, c: int)
    requires -c < k * c < c
    ensures k == 0
  {
    if k >= 1 { MulLe(1, k, c); }
    if k <= -1 { MulLe(k, -1, c); }
  }

  lemma QuotientIs(n: int, q: int, r: int, c: int)
    requires 0 <= r < c && n == q * c + r
    ensures n / c == q && n % c == r
  {
    var d := n / c;
    assert n == d * c + n % c;
    assert (d - q) * c == d * c - q * c;
    NoGap(d - q, c);
  }
}
