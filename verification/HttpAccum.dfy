/** The growable buffer that collects the body of a POST request. */
module HttpAccum {
  import opened Basics

  const SIZE_MOD: nat := 0x1_0000_0000_0000_0000
  const HALF: nat := 0x8000_0000_0000_0000

  // ---- growth ------------------------------------------------------------------------------------

  /** `ncap * 2` in a `size_t`. */
  function Twice(c: nat): nat
    requires c < SIZE_MOD
  {
    if c < HALF then 2 * c else 2 * c - SIZE_MOD
  }

  /** The capacities that doubling from 1024 goes through. */
  function Size(k: nat): (c: nat)
    ensures c >= 1024
  {
    if k == 0 then 1024 else 2 * Size(k - 1)
  }

  ghost predicate IsSize(c: nat) {
    exists k: nat :: c == Size(k)
  }

  /** The first capacity from `c` on that is at least `need`, sizes being unbounded. */
  function Grow(c: nat, need: nat): (r: nat)
    requires c > 0
    ensures c <= r && need <= r
    ensures r == c || r < 2 * need
    decreases need - c
  {
    if c >= need then c else Grow(2 * c, need)
  }

  lemma {:induction false} GrowKeepsSize(k: nat, need: nat)
    ensures IsSize(Grow(Size(k), need))
    decreases need - Size(k)
  {
    if Size(k) < need {
      assert 2 * Size(k) == Size(k + 1);
      GrowKeepsSize(k + 1, need);
    }
  }

  /** The loop variable after `n` rounds of the growth loop, in a `size_t`. */
  function Rounds(c: nat, n: nat): (r: nat)
    requires c < SIZE_MOD
    ensures r < SIZE_MOD
    decreases n
  {
    if n == 0 then c else Rounds(Twice(c), n - 1)
  }

  ghost predicate LoopEnds(c: nat, need: nat)
    requires c < SIZE_MOD
  {
    exists n: nat :: Rounds(c, n) >= need
  }

  /** The number of times `c` can be doubled before it is 2^63. */
  predicate DoublesToHalf(c: nat, d: nat)
    decreases d
  {
    if d == 0 then c == HALF else 0 < c < HALF && DoublesToHalf(2 * c, d - 1)
  }

  /** 1024 doubled 53 times is 2^63. */
  lemma {:induction false} SizesReachHalf(k: nat)
    requires k <= 53
    ensures DoublesToHalf(Size(k), 53 - k) && Size(k) <= HALF
    decreases 53 - k
  {
    if k == 53 {
      TopSize();
    } else {
      SizesReachHalf(k + 1);
      assert Size(k + 1) == 2 * Size(k);
    }
  }

  lemma TopSize()
    ensures Size(53) == HALF
  {
    assert Size(13) == 0x80_0000 by {
      assert Size(5) == 0x8000;
      assert Size(9) == 0x8_0000;
    }
    assert Size(28) == 0x40_0000_0000 by {
      assert Size(18) == 0x1000_0000;
      assert Size(23) == 0x2_0000_0000;
    }
    assert Size(43) == 0x20_0000_0000_0000 by {
      assert Size(33) == 0x800_0000_0000;
      assert Size(38) == 0x1_0000_0000_0000;
    }
    assert Size(48) == 0x400_0000_0000_0000;
  }

  lemma {:induction false} ZeroStays(n: nat)
    ensures Rounds(0, n) == 0
  {
    if n > 0 {
      ZeroStays(n - 1);
    }
  }

  lemma {:induction false} NeverAboveHalf(c: nat, d: nat, n: nat)
    requires DoublesToHalf(c, d) && c < SIZE_MOD
    ensures Rounds(c, n) <= HALF
    decreases n
  {
    if n > 0 {
      if d == 0 {
        ZeroStays(n - 1);
      } else {
        NeverAboveHalf(2 * c, d - 1, n - 1);
      }
    }
  }

  lemma {:induction false} ReachesHalf(c: nat, d: nat)
    requires DoublesToHalf(c, d) && c < SIZE_MOD
    ensures Rounds(c, d) == HALF
    decreases d
  {
    if d > 0 {
      ReachesHalf(2 * c, d - 1);
    }
  }

  lemma LoopFromSize(k: nat, need: nat)
    requires k <= 53
    ensures Size(k) < SIZE_MOD && (LoopEnds(Size(k), need) <==> need <= HALF)
  {
    SizesReachHalf(k);
    if need <= HALF {
      ReachesHalf(Size(k), 53 - k);
      assert Rounds(Size(k), 53 - k) >= need;
    } else {
      forall n: nat ensures Rounds(Size(k), n) < need {
        NeverAboveHalf(Size(k), 53 - k, n);
      }
    }
  }

  /** The capacities a buffer can have: none yet, or 1024 doubled up to 2^63. */
  ghost predicate IsCap(cap: nat) {
    cap == 0 || exists k :: 0 <= k <= 53 && cap == Size(k)
  }

  /** The capacity the growth loop starts with. */
  function FirstCap(cap: nat): nat
    requires cap < SIZE_MOD
  {
    if cap > 0 then Twice(cap) else 1024
  }

  /** For a buffer of any capacity that does not hold the need, the growth loop ends exactly when the need is
      at most 2^63; above that the capacity wraps to zero and stays there. */
  lemma GrowthEnds(cap: nat, need: nat)
    requires IsCap(cap) && cap < need
    ensures cap < SIZE_MOD && (LoopEnds(FirstCap(cap), need) <==> need <= HALF)
  {
    if cap == 0 {
      LoopFromSize(0, need);
    } else {
      var k :| 0 <= k <= 53 && cap == Size(k);
      SizesReachHalf(k);
      if k == 53 {
        TopSize();
        forall n: nat ensures Rounds(0, n) < need {
          ZeroStays(n);
        }
      } else {
        LoopFromSize(k + 1, need);
        SizesReachHalf(k + 1);
        assert FirstCap(cap) == Size(k + 1);
      }
    }
  }

  // ---- the buffer as a value -----------------------------------------------------------------------

  /** What was collected, the capacity, and the bytes all reallocations together had to move. */
  datatype Acc = Acc(body: seq<byte>, cap: nat, moved: nat)

  const EMPTY := Acc([], 0, 0)

  /** One append; `memory` is whether `realloc` would succeed. A failed one leaves everything as it was. */
  function Append(a: Acc, chunk: seq<byte>, memory: bool): (r: (bool, Acc)) {
    var need := |a.body| + |chunk| + 1;
    if need <= a.cap then (true, a.(body := a.body + chunk))
    else if !memory then (false, a)
    else (true, Acc(a.body + chunk, Grow(if a.cap > 0 then 2 * a.cap else 1024, need), a.moved + a.cap))
  }

  /** An append fails only for want of memory, when the buffer must grow; otherwise the bytes follow what is
      there. */
  lemma AppendSucceeds(a: Acc, chunk: seq<byte>, memory: bool)
    ensures Append(a, chunk, memory).0 <==> memory || |a.body| + |chunk| < a.cap
    ensures Append(a, chunk, memory).1.body == if Append(a, chunk, memory).0 then a.body + chunk else a.body
  {
  }

  ghost predicate AccOk(a: Acc) {
    if a.cap == 0 then a.body == [] && a.moved == 0
    else |a.body| < a.cap && IsSize(a.cap) && a.cap <= Max(1024, 2 * (|a.body| + 1)) && a.moved + 1024 <= a.cap
  }

  lemma AppendKeeps(a: Acc, chunk: seq<byte>, memory: bool)
    requires AccOk(a)
    ensures AccOk(Append(a, chunk, memory).1)
  {
    var need := |a.body| + |chunk| + 1;
    if need > a.cap && memory {
      if a.cap == 0 {
        assert 1024 == Size(0);
        GrowKeepsSize(0, need);
      } else {
        var k: nat :| a.cap == Size(k);
        assert 2 * a.cap == Size(k + 1);
        GrowKeepsSize(k + 1, need);
      }
    }
  }

  /** Any sequence of appends, some of which may find no memory. */
  function AppendAll(a: Acc, chunks: seq<(seq<byte>, bool)>): Acc
    decreases |chunks|
  {
    if chunks == [] then a else AppendAll(Append(a, chunks[0].0, chunks[0].1).1, chunks[1..])
  }

  /** The amortised bound: after any sequence of appends the capacity is 0 or 1024 doubled some number of
      times, at most twice what is stored (or 1024), and the bytes ever moved by reallocations are fewer
      than that capacity, so a constant number per byte stored. */
  lemma {:induction false} AmortisedBound(a: Acc, chunks: seq<(seq<byte>, bool)>)
    requires AccOk(a)
    ensures AccOk(AppendAll(a, chunks))
    ensures var r := AppendAll(a, chunks);
      r.cap > 0 ==> r.moved < r.cap && r.moved <= 2 * (|r.body| + 1)
    decreases |chunks|
  {
    if chunks != [] {
      AppendKeeps(a, chunks[0].0, chunks[0].1);
      AmortisedBound(Append(a, chunks[0].0, chunks[0].1).1, chunks[1..]);
    }
  }

  // ---- the buffer in memory --------------------------------------------------------------------------

  class PostAccum {
    var data: array?<byte>
    var len: nat
    var cap: nat
    ghost var moved: nat

    ghost predicate Valid()
      reads this, data
    {
      && (data == null <==> cap == 0) && (data == null ==> len == 0)
      && (data != null ==> data.Length == cap && len < cap && data[len] == 0)
      && AccOk(Value())
    }

    ghost function Value(): Acc
      reads this, data
    {
      Acc(if data == null || len > data.Length then [] else data[..len], cap, moved)
    }

    constructor ()
      ensures Valid() && Value() == EMPTY && data == null
    {
      data, len, cap, moved := null, 0, 0, 0;
    }

    /** `realloc` to a larger size: a fresh block that begins with the old one, or no memory. */
    method Realloc(ncap: nat, memory: bool) returns (nd: array?<byte>)
      requires data != null ==> data.Length == cap <= ncap
      ensures nd != null <==> memory
      ensures nd != null ==> fresh(nd) && nd.Length == ncap
                             && (data != null ==> nd[..cap] == data[..])
    {
      if !memory {
        return null;
      }
      nd := new byte[ncap](_ => 0);
      if data != null {
        forall i | 0 <= i < cap {
          nd[i] := data[i];
        }
      }
    }

    /** The growth loop, in `size_t`. */
    static method NextCap(cap: nat, need: nat) returns (ncap: nat)
      requires cap < need <= HALF
      ensures ncap == Grow(if cap > 0 then 2 * cap else 1024, need)
    {
      ncap := if cap > 0 then Twice(cap) else 1024;
      while ncap < need
        invariant 0 < ncap
        invariant Grow(ncap, need) == Grow(if cap > 0 then 2 * cap else 1024, need)
        decreases need - ncap
      {
        ncap := Twice(ncap);
      }
    }

    method AccumAppend(chunk: seq<byte>, memory: bool) returns (ok: bool)
      requires Valid() && len + |chunk| + 1 <= HALF
      modifies this, data
      ensures Valid()
      ensures (ok, Value()) == Append(old(Value()), chunk, memory)
      ensures data == old(data) || fresh(data)
    {
      ghost var was := Value();
      AppendKeeps(was, chunk, memory);
      ok := true;
      if len + |chunk| + 1 > cap {
        ok := Enlarge(len + |chunk| + 1, memory);
        if !ok {
          return;
        }
      }
      assert data[..len] == was.body;
      Store(chunk);
      assert Value() == Append(was, chunk, memory).1;
    }

    /** Moves the contents to a block with room for `need` bytes, if there is one. */
    method Enlarge(need: nat, memory: bool) returns (ok: bool)
      requires Valid() && cap < need <= HALF
      modifies this
      ensures ok == memory && len == old(len)
      ensures !ok ==> data == old(data) && cap == old(cap) && moved == old(moved)
      ensures ok ==> cap == Grow(if old(cap) > 0 then 2 * old(cap) else 1024, need) && moved == old(moved) + old(cap)
      ensures ok ==> data != null && fresh(data) && data.Length == cap >= len && data[..len] == old(Value()).body
    {
      var ncap := NextCap(cap, need);
      var nd := Realloc(ncap, memory);
      if nd == null {
        return false;
      }
      if data != null {
        assert nd[..len] == nd[..cap][..len];
        assert data[..len] == data[..][..len];
      }
      moved := moved + cap;
      data := nd;
      cap := ncap;
      ok := true;
    }

    /** Copies the chunk behind what is there and terminates it. */
    method Store(chunk: seq<byte>)
      requires data != null && len + |chunk| < data.Length
      modifies this`len, data
      ensures len == old(len) + |chunk| && data[..len] == old(data[..len]) + chunk && data[len] == 0
    {
      forall i | 0 <= i < |chunk| {
        data[len + i] := chunk[i];
      }
      len := len + |chunk|;
      data[len] := 0;
    }
  }
}
