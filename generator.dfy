/** The process-wide loading-key counter: a static 32-bit int that
    Interlocked.Increment advances and whose new value it returns. */
module Generator {

  const MinInt32: int := -0x8000_0000
  const MaxInt32: int := 0x7FFF_FFFF

  predicate IsInt32(x: int) {
    MinInt32 <= x <= MaxInt32
  }

  /** Interlocked.Increment on an int: one more, wrapping from Int32.MaxValue to Int32.MinValue. */
  function Increment(x: int): (next: int)
    requires IsInt32(x)
  {
    if x == MaxInt32 then MinInt32 else x + 1
  }

  /** The counter after `n` increments starting from `from`. */
  function Advance(from: int, n: nat): (r: int)
    requires IsInt32(from)
    ensures IsInt32(r)
  {
    if n == 0 then from else Increment(Advance(from, n - 1))
  }

  /** The keys `n` successive calls hand out when the counter starts at `from`. */
  function Issued(from: int, n: nat): (r: seq<int>)
    requires IsInt32(from)
    ensures |r| == n
  {
    if n == 0 then [] else Issued(from, n - 1) + [Advance(from, n)]
  }

  /** Until the counter reaches Int32.MaxValue, the i-th key handed out is `from + 1 + i`. */
  lemma {:induction false} IssuedCountsUp(from: int, n: nat)
    requires IsInt32(from) && from + n <= MaxInt32
    ensures Advance(from, n) == from + n
    ensures forall i :: 0 <= i < n ==> Issued(from, n)[i] == from + 1 + i
  {
    if n > 0 {
      IssuedCountsUp(from, n - 1);
    }
  }

  /** Keys are strictly increasing, so none is handed out twice, while the counter stays
      below Int32.MaxValue; the first key handed out after start-up is 1. */
  lemma IssuedStrictlyIncreasing(n: nat)
    requires n <= MaxInt32
    ensures forall i, j :: 0 <= i < j < n ==> Issued(0, n)[i] < Issued(0, n)[j]
    ensures n > 0 ==> Issued(0, n)[0] == 1
  {
    IssuedCountsUp(0, n);
  }

  /** Holder of the static `_loadingKey` field. */
  class LoadingKeyGenerator {
    var loadingKey: int
    /** Every key handed out since start-up, in order. */
    ghost var issued: seq<int>

    ghost predicate Valid()
      reads this
    {
      && IsInt32(loadingKey)
      && loadingKey == Advance(0, |issued|)
      && issued == Issued(0, |issued|)
    }

    /** The static field starts at the default value 0. */
    constructor ()
      ensures Valid() && loadingKey == 0 && issued == []
    {
      loadingKey := 0;
      issued := [];
    }

    /** GetNextLoadingKey: increments the counter and returns its new value. */
    method GetNextLoadingKey() returns (key: int)
      requires Valid()
      modifies this
      ensures Valid()
      ensures key == Increment(old(loadingKey)) && loadingKey == key
      ensures issued == old(issued) + [key]
    {
      loadingKey := Increment(loadingKey);
      key := loadingKey;
      issued := issued + [key];
    }
  }
}
