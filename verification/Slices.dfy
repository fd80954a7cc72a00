/**
 A large download in slices, each on disk as it lands, resumed after any interruption
 (src/sync-engine.ts:837-905; ranges are those of section 14.1.2 of RFC 9110).
 */
module Slices {
  import opened Sealing

  function Count(size: nat, chunk: nat): (n: nat)
    requires chunk > 0
  {
    (size + chunk - 1) / chunk
  }

  function Min(a: int, b: int): int {
    if a < b then a else b
  }

  /** The bytes of one inclusive range, as the server answers it. */
  function Range(content: Data, start: nat, end: int): Data
    requires start <= end + 1 && start <= |content|
  {
    content[start..Min(|content|, end + 1)]
  }

  function Slice(content: Data, chunk: nat, i: nat): Data
    requires chunk > 0 && i < Count(|content|, chunk)
  {
    SliceBounds(|content|, chunk, i);
    Range(content, i * chunk, Min(|content|, i * chunk + chunk) - 1)
  }

  /** A slice begins inside the file, and the last one ends with it. */
  lemma SliceBounds(size: nat, chunk: nat, i: nat)
    requires chunk > 0 && i < Count(size, chunk)
    ensures i * chunk < size
    ensures i + 1 == Count(size, chunk) <==> i * chunk + chunk >= size
    ensures (i + 1) * chunk == i * chunk + chunk
  {
    var n := Count(size, chunk);
    DivisionBounds(size + chunk - 1, chunk);
    TimesGrows(i + 1, n, chunk);
    Distributes(i, chunk);
    if i + 1 < n {
      TimesGrows(i + 2, n, chunk);
      Distributes(i + 1, chunk);
    }
  }

  /** All slices but the last have the chosen length, and the last is no longer and not empty. */
  lemma SliceLength(content: Data, chunk: nat, i: nat)
    requires chunk > 0 && i < Count(|content|, chunk)
    ensures var n := |Slice(content, chunk, i)|; if i + 1 < Count(|content|, chunk) then n == chunk else 0 < n <= chunk
  {
    SliceBounds(|content|, chunk, i);
    hide Count;
  }

  lemma DivisionBounds(m: nat, chunk: nat)
    requires chunk > 0
    ensures (m / chunk) * chunk <= m < (m / chunk) * chunk + chunk
  {
  }

  lemma TimesGrows(i: nat, n: nat, chunk: nat)
    requires i <= n
    ensures i * chunk <= n * chunk
  {
    assert n * chunk == i * chunk + (n - i) * chunk;
  }

  lemma Distributes(i: nat, chunk: nat)
    ensures (i + 1) * chunk == i * chunk + chunk
  {
  }

  /** The first k slices, one after the other. */
  function Joined(content: Data, chunk: nat, k: nat): Data
    requires chunk > 0 && k <= Count(|content|, chunk)
  {
    if k == 0 then [] else Joined(content, chunk, k - 1) + Slice(content, chunk, k - 1)
  }

  /** The ranges partition the file: each prefix of slices is a prefix of it, and all of them are all of it. */
  lemma {:induction false} SlicesPartition(content: Data, chunk: nat, k: nat)
    requires chunk > 0 && k <= Count(|content|, chunk)
    ensures Joined(content, chunk, k) == content[..Min(|content|, k * chunk)]
    ensures k == Count(|content|, chunk) ==> Joined(content, chunk, k) == content
  {
    if k > 0 {
      SliceBounds(|content|, chunk, k - 1);
      SlicesPartition(content, chunk, k - 1);
    }
  }

  lemma CutInTwo(s: Data, i: nat, j: nat)
    requires i <= j <= |s|
    ensures s[..j] == s[..i] + s[i..j]
  {
  }

  lemma LastSliceEnds(size: nat, chunk: nat)
    requires chunk > 0
    ensures Min(size, Count(size, chunk) * chunk) == size
  {
    if size > 0 {
      var n := Count(size, chunk);
      assert n > 0;
      SliceBounds(size, chunk, n - 1);
    }
  }

  // ---- the slices on disk -------------------------------------------------------------

  /** What the slices belong to: revision, expected hash and size. */
  datatype Stamp = Stamp(rev: int, hash: string, size: nat)

  function FirstMissing(slices: map<nat, Data>, from: nat, count: nat): (n: nat)
    requires from <= count
    ensures from <= n <= count && (forall i: nat | from <= i < n :: i in slices) && (n < count ==> n !in slices)
    decreases count - from
  {
    if from == count || from !in slices then from else FirstMissing(slices, from + 1, count)
  }

  class SliceDir {
    var stamped: bool
    var stamp: Stamp
    var slices: map<nat, Data>

    constructor ()
      ensures !stamped
    {
      stamped, stamp, slices := false, Stamp(0, "", 0), map[];
    }

    /** Under this stamp, every slice on disk is that slice of this content. */
    ghost predicate Holds(now: Stamp, content: Data, chunk: nat)
      requires chunk > 0
      reads this
    {
      stamped && stamp == now ==>
        forall i: nat | i in slices && i < Count(|content|, chunk) :: slices[i] == Slice(content, chunk, i)
    }

    /** How many slices from the start are there. */
    ghost function Prefix(count: nat): (n: nat)
      ensures n <= count && (forall i: nat | i < n :: i in slices) && (n < count ==> n !in slices)
      reads this
    {
      FirstMissing(slices, 0, count)
    }

    method Drop()
      modifies this
      ensures !stamped && slices == map[]
    {
      stamped, slices := false, map[];
    }

    /**
     One attempt, cut off after so many slices.  What is on disk stays right, every slice
     fetched brings the next attempt closer, and a finished attempt has the whole content.
     */
    method FetchInSlices(content: Data, now: Stamp, chunk: nat, budget: nat) returns (data: Data, done: bool)
      requires chunk > 0 && now.size == |content| && Holds(now, content, chunk)
      modifies this
      ensures stamped && stamp == now && Holds(now, content, chunk)
      ensures done ==> data == content
      ensures var count := Count(|content|, chunk);
              var had := if old(stamped) && old(stamp) == now then old(Prefix(count)) else 0;
              && (done <==> count <= had + budget)
              && Prefix(count) >= Min(count, had + budget)
    {
      var count := Count(now.size, chunk);
      var have := 0;
      ghost var had := if stamped && stamp == now then Prefix(count) else 0;
      if stamped && stamp == now {
        while have < count && have in slices
          invariant have <= count && forall i: nat | i < have :: i in slices
        {
          have := have + 1;
        }
      } else {
        Drop();
        stamped, stamp := true, now;
      }
      var left := budget;
      for i := have to count
        invariant stamped && stamp == now && Holds(now, content, chunk)
        invariant (forall j: nat | j < i :: j in slices) && left == budget - (i - have)
      {
        if left == 0 {
          data, done := [], false;
          return;
        }
        left := left - 1;
        SliceBounds(|content|, chunk, i);
        var got := Range(content, i * chunk, Min(now.size, i * chunk + chunk) - 1);
        slices := slices[i := got];
      }
      data := Join(content, now.size, chunk);
      done := true;
    }

    /** The slices, each set at its own offset. */
    method Join(ghost content: Data, size: nat, chunk: nat) returns (data: Data)
      requires chunk > 0 && size == |content|
      requires forall i: nat | i < Count(size, chunk) :: i in slices && slices[i] == Slice(content, chunk, i)
      ensures data == content
    {
      var count := Count(size, chunk);
      var joined := new Byte[size];
      SlicesPartition(content, chunk, 0);
      for i := 0 to count
        invariant joined[..Min(size, i * chunk)] == content[..Min(size, i * chunk)]
      {
        SliceBounds(size, chunk, i);
        var got := slices[i];
        assert |got| == Min(size, i * chunk + chunk) - i * chunk;
        ghost var before := joined[..i * chunk];
        forall k | 0 <= k < |got| {
          joined[i * chunk + k] := got[k];
        }
        assert joined[..i * chunk] == before;
        assert joined[i * chunk..i * chunk + |got|] == got;
        CutInTwo(joined[..], i * chunk, Min(size, i * chunk + chunk));
        CutInTwo(content, i * chunk, Min(size, i * chunk + chunk));
      }
      LastSliceEnds(size, chunk);
      return joined[..];
    }
  }
}
