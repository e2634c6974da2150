/**
 * The doubling chunk-size strategy of the chunked reader (`minMaxIterator`):
 * the first size is the minimum, every later one twice the one before,
 * capped at the maximum; a minimum of -1 turns chunking off.
 *
 * `MinMaxNextAsWritten` is the step exactly as the source computes it, with
 * the int64 wrap-around of `cur *= 2`; `MinMaxNext` is the step with the
 * internal value held at the cap, which is what the rest of the model uses.
 */
module SizeIterators {
  import opened Int64

  /** The fields of a minMaxIterator; `min == -1` means "chunking disabled". */
  datatype MinMaxState = MinMaxState(cur: int, min: int, max: int)

  /** The states `IteratorFromMinMax` creates and `MinMaxNext` keeps. */
  predicate MinMaxValid(s: MinMaxState) {
    IsInt64(s.cur) &&
    (s.min == -1 || (0 < s.min <= s.max <= MaxInt64 && (s.cur == 0 || s.min <= s.cur <= s.max)))
  }

  /**
   * `IteratorFromMinMax(min, max)`: a non-positive minimum disables chunking;
   * otherwise a maximum of -1 means "no cap" (MaxInt64) and any other maximum
   * below the minimum is raised to it.
   */
  function IteratorFromMinMax(min: int, max: int): (r: MinMaxState)
    requires IsInt64(min) && IsInt64(max)
    ensures MinMaxValid(r) && r.cur == 0
    ensures r.min == -1 <==> min <= 0
    ensures min > 0 ==> r.min == min && r.min <= r.max
    ensures min > 0 && max == -1 ==> r.max == MaxInt64
    ensures min > 0 && max != -1 && max >= min ==> r.max == max
    ensures min > 0 && max != -1 && max < min ==> r.max == min
  {
    if min <= 0 then MinMaxState(0, -1, 0)
    else if max != -1 then MinMaxState(0, min, if max < min then min else max)
    else MinMaxState(0, min, MaxInt64)
  }

  /**
   * One `NextChunkSize` call of the corrected strategy: the size returned and
   * the new state. The internal value stops at the cap instead of doubling on.
   */
  function MinMaxNext(s: MinMaxState): (r: (int, MinMaxState))
    requires MinMaxValid(s)
    ensures MinMaxValid(r.1) && r.1.min == s.min && r.1.max == s.max
    ensures s.min == -1 ==> r.0 == -1
    ensures s.min > 0 ==> s.min <= r.0 <= s.max
    ensures s.min > 0 && s.cur == 0 ==> r.0 == s.min
  {
    if s.cur < s.min || s.min == -1 then (s.min, s.(cur := s.min))
    else
      var cur := if s.cur > 0 then (if s.cur > s.max - s.cur then s.max else 2 * s.cur) else s.cur;
      (if cur > s.max then s.max else cur, s.(cur := cur))
  }

  /** One `NextChunkSize` call exactly as the source performs it, `cur *= 2` wrapping at 64 bits. */
  function MinMaxNextAsWritten(s: MinMaxState): (r: (int, MinMaxState))
    requires IsInt64(s.cur) && IsInt64(s.min)
    ensures IsInt64(r.1.cur) && r.1.min == s.min && r.1.max == s.max
  {
    if s.cur < s.min || s.min == -1 then (s.min, s.(cur := s.min))
    else
      var cur := if s.cur > 0 then Wrap64(s.cur * 2) else s.cur;
      (if cur > s.max then s.max else cur, s.(cur := cur))
  }

  /** `Reset`: the length hint is ignored and the sequence restarts at the minimum. */
  function MinMaxReset(s: MinMaxState): (r: MinMaxState)
    ensures MinMaxValid(s) ==> MinMaxValid(r)
    ensures r.min == s.min && r.max == s.max && r.cur == 0
  {
    s.(cur := 0)
  }

  /** The state after k calls of the corrected step. */
  function MinMaxAfter(s: MinMaxState, k: nat): (r: MinMaxState)
    requires MinMaxValid(s)
    ensures MinMaxValid(r) && r.min == s.min && r.max == s.max
    decreases k
  {
    if k == 0 then s else MinMaxNext(MinMaxAfter(s, k - 1)).1
  }

  /** The state after k calls of the step as written. */
  function MinMaxAfterAsWritten(s: MinMaxState, k: nat): (r: MinMaxState)
    requires IsInt64(s.cur) && IsInt64(s.min)
    ensures IsInt64(r.cur) && r.min == s.min && r.max == s.max
    decreases k
  {
    if k == 0 then s else MinMaxNextAsWritten(MinMaxAfterAsWritten(s, k - 1)).1
  }

  /** The first k sizes the corrected strategy yields. */
  function MinMaxSizes(s: MinMaxState, k: nat): (r: seq<int>)
    requires MinMaxValid(s)
    ensures |r| == k
    ensures forall i | 0 <= i < k :: r[i] == MinMaxNext(MinMaxAfter(s, i)).0
    decreases k
  {
    if k == 0 then [] else MinMaxSizes(s, k - 1) + [MinMaxNext(MinMaxAfter(s, k - 1)).0]
  }

  /**
   * The doubling sequence in closed form: after a reset, call number k
   * (counting from 0) yields min * 2^k capped at max, for every k.
   */
  lemma {:induction false} DoublingClosedForm(s: MinMaxState, k: nat)
    requires MinMaxValid(s) && s.min > 0 && s.cur == 0
    ensures MinMaxAfter(s, k + 1).cur == Min(s.min * Pow2(k), s.max)
    ensures MinMaxNext(MinMaxAfter(s, k)).0 == Min(s.min * Pow2(k), s.max)
  {
    var st := MinMaxAfter(s, k);
    assert MinMaxAfter(s, k + 1) == MinMaxNext(st).1;
    if k == 0 {
      assert s.min * Pow2(0) == s.min;
    } else {
      DoublingClosedForm(s, k - 1);
      var prev := s.min * Pow2(k - 1);
      DoubleProduct(s.min, Pow2(k - 1));
      assert st.cur == Min(prev, s.max);
      assert prev >= s.min by { PositiveProduct(s.min, Pow2(k - 1)); }
    }
  }

  lemma DoubleProduct(a: int, b: int)
    ensures a * (2 * b) == 2 * (a * b)
  {
  }

  lemma PositiveProduct(a: int, b: int)
    requires a > 0 && b >= 1
    ensures a * b >= a
  {
  }

  /** With chunking disabled every call yields -1, whatever state the iterator is in. */
  lemma DisabledYieldsMinusOne(s: MinMaxState, k: nat)
    requires MinMaxValid(s) && s.min == -1
    ensures MinMaxNext(MinMaxAfter(s, k)).0 == -1
    ensures MinMaxNext(MinMaxAfter(MinMaxReset(s), k)).0 == -1
  {
  }

  /** min 2, max 16: six calls yield 2, 4, 8, 16, 16, 16. */
  lemma DoublingExample()
    ensures MinMaxSizes(IteratorFromMinMax(2, 16), 6) == [2, 4, 8, 16, 16, 16]
  {
    var s := IteratorFromMinMax(2, 16);
    forall i | 0 <= i < 6 ensures MinMaxNext(MinMaxAfter(s, i)).0 == [2, 4, 8, 16, 16, 16][i] {
      DoublingClosedForm(s, i);
    }
  }

  /**
   * The step as written follows the same closed form as long as min * 2^k
   * still fits in an int64.
   */
  lemma {:induction false} DoublingAsWrittenClosedForm(s: MinMaxState, k: nat)
    requires MinMaxValid(s) && s.min > 0 && s.cur == 0
    requires s.min * Pow2(k) <= MaxInt64
    ensures MinMaxAfterAsWritten(s, k + 1).cur == s.min * Pow2(k)
    ensures MinMaxNextAsWritten(MinMaxAfterAsWritten(s, k)).0 == Min(s.min * Pow2(k), s.max)
  {
    var st := MinMaxAfterAsWritten(s, k);
    assert MinMaxAfterAsWritten(s, k + 1) == MinMaxNextAsWritten(st).1;
    if k == 0 {
      assert s.min * Pow2(0) == s.min;
    } else {
      var prev := s.min * Pow2(k - 1);
      DoubleProduct(s.min, Pow2(k - 1));
      assert prev >= s.min by { PositiveProduct(s.min, Pow2(k - 1)); }
      DoublingAsWrittenClosedForm(s, k - 1);
      assert st.cur == prev;
    }
  }

  /**
   * The source keeps doubling `cur` after the result is capped, so `cur`
   * overflows: with min 128 MiB and max 1 GiB, call number 36 (from 0)
   * yields MinInt64, a negative size that turns chunking off.
   */
  lemma DoublingAsWrittenOverflows()
    ensures IteratorFromMinMax(0x800_0000, 0x4000_0000) == MinMaxState(0, 0x800_0000, 0x4000_0000)
    ensures MinMaxNextAsWritten(MinMaxAfterAsWritten(IteratorFromMinMax(0x800_0000, 0x4000_0000), 36)).0 == MinInt64
  {
    var s := IteratorFromMinMax(0x800_0000, 0x4000_0000);
    Pow2ThirtyFive();
    DoublingAsWrittenClosedForm(s, 35);
    var st := MinMaxAfterAsWritten(s, 36);
    assert st.cur == 0x4000_0000_0000_0000;
    assert Wrap64(st.cur * 2) == MinInt64;
  }

  lemma Pow2ThirtyFive()
    ensures Pow2(35) == 0x8_0000_0000
  {
    assert Pow2(5) == 32;
    Pow2Sum(5, 5);
    Pow2Sum(10, 10);
    Pow2Sum(20, 10);
    Pow2Sum(30, 5);
  }

  lemma {:induction false} Pow2Sum(a: nat, b: nat)
    ensures Pow2(a + b) == Pow2(a) * Pow2(b)
    decreases b
  {
    if b > 0 {
      Pow2Sum(a, b - 1);
    }
  }

  /** The corrected strategy never yields a size outside [min, max], however many calls are made. */
  lemma CorrectedStaysInRange(s: MinMaxState, k: nat)
    requires MinMaxValid(s) && s.min > 0
    ensures s.min <= MinMaxNext(MinMaxAfter(s, k)).0 <= s.max
  {
  }

  /**
   * The corrected strategy and the source agree on every call whose
   * uncapped size min * 2^k still fits in an int64; they part only once the
   * source's `cur` has overflowed.
   */
  lemma CorrectedAgreesWithAsWritten(s: MinMaxState, k: nat)
    requires MinMaxValid(s) && s.min > 0 && s.cur == 0
    requires s.min * Pow2(k) <= MaxInt64
    ensures MinMaxNext(MinMaxAfter(s, k)).0 == MinMaxNextAsWritten(MinMaxAfterAsWritten(s, k)).0
  {
    DoublingClosedForm(s, k);
    DoublingAsWrittenClosedForm(s, k);
  }

  /** A minMaxIterator object; `min` and `max` are fixed when it is created, `cur` moves. */
  class MinMaxIterator {
    var cur: int
    const min: int
    const max: int

    ghost function State(): MinMaxState
      reads this
    {
      MinMaxState(cur, min, max)
    }

    ghost predicate Valid()
      reads this
    {
      MinMaxValid(State())
    }

    constructor (s: MinMaxState)
      requires MinMaxValid(s)
      ensures Valid() && State() == s
    {
      cur, min, max := s.cur, s.min, s.max;
    }

    method NextChunkSize() returns (size: int)
      requires Valid()
      modifies this
      ensures Valid()
      ensures (size, State()) == MinMaxNext(old(State()))
    {
      if cur < min || min == -1 {
        cur := min;
        return min;
      }
      if cur > 0 {
        if cur > max - cur {
          cur := max;
        } else {
          cur := cur * 2;
        }
      }
      if cur > max {
        return max;
      }
      return cur;
    }

    method Reset(length: int)
      requires Valid()
      modifies this
      ensures Valid()
      ensures State() == MinMaxReset(old(State()))
    {
      cur := 0;
    }
  }
}
