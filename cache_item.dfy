/**
 * CacheItem: a cached value with a caching mode, an interval, a read
 * counter and a time stamp. Reading the value counts the read; renewing the
 * intervals resets the counter and the time stamp.
 */
module Caching {
  import Wrappers

  /** The caching modes; `Off` is the enum member None (0). */
  datatype CacheMode = Off | Permanent | TimeSpan | RepeatedRequestLimit

  datatype CacheError = ArgumentNull(paramName: string)

  const Int32Min: int := -0x8000_0000
  const Int32Max: int := 0x7FFF_FFFF

  predicate IsInt32(x: int) {
    Int32Min <= x <= Int32Max
  }

  /** Two's-complement reduction of an integer to 32 bits, as an unchecked C# int conversion does. */
  function Wrap32(x: int): (r: int)
    ensures IsInt32(r)
    ensures IsInt32(x) ==> r == x
  {
    (x - Int32Min) % 0x1_0000_0000 + Int32Min
  }

  /** CallCount++ on an int in an unchecked context: Int32.MaxValue wraps to Int32.MinValue. */
  function Increment32(x: int): int
    requires IsInt32(x)
  {
    if x == Int32Max then Int32Min else x + 1
  }

  /** The increment is the 32-bit wrap of x + 1. */
  lemma Increment32Wraps(x: int)
    requires IsInt32(x)
    ensures Increment32(x) == Wrap32(x + 1)
  {
    if x == Int32Max {
      assert x + 1 - Int32Min == 0x1_0000_0000;
    }
  }

  /** The counter after n reads starting from c. */
  function CountAfter(c: int, n: nat): (r: int)
    requires IsInt32(c)
    ensures IsInt32(r)
  {
    if n == 0 then c else Increment32(CountAfter(c, n - 1))
  }

  /** n reads add n to the counter, modulo 2^32. */
  lemma {:induction false} CountAfterWraps(c: int, n: nat)
    requires IsInt32(c)
    ensures CountAfter(c, n) == Wrap32(c + n)
  {
    if n > 0 {
      CountAfterWraps(c, n - 1);
      var p := CountAfter(c, n - 1);
      Increment32Wraps(p);
      assert Wrap32(p + 1) == Wrap32(c + n) by {
        WrapShift(c + n - 1, 1);
      }
    }
  }

  /** Wrapping commutes with adding a constant afterwards. */
  lemma WrapShift(x: int, d: int)
    ensures Wrap32(Wrap32(x) + d) == Wrap32(x + d)
  {
    var q := (x - Int32Min) / 0x1_0000_0000;
    assert x - Int32Min == q * 0x1_0000_0000 + (Wrap32(x) - Int32Min);
    var a := x + d - Int32Min;
    var k := a / 0x1_0000_0000;
    var r := a % 0x1_0000_0000;
    assert a == k * 0x1_0000_0000 + r;
    assert Wrap32(x) + d - Int32Min == (k - q) * 0x1_0000_0000 + r;
  }

  /** The mode a new item gets: a non-positive interval forces Permanent. */
  function EffectiveMode(mode: CacheMode, interval: real): CacheMode {
    if interval <= 0.0 then Permanent else mode
  }

  class CacheItem<T> {
    const item: T
    var cachingMode: CacheMode
    var interval: real
    var callCount: int
    var timeStamp: int

    ghost predicate Valid()
      reads this
    {
      IsInt32(callCount) && (interval <= 0.0 ==> cachingMode == Permanent)
    }

    /**
     * new CacheItem(item, mode, interval) for a non-null item: the mode is
     * Permanent and the interval absent by default; an absent interval is 0,
     * and a non-positive interval forces Permanent. `now` is the clock
     * reading DateTime.Now would give.
     */
    constructor (item: T, now: int, mode: CacheMode := Permanent, interval: Wrappers.Option<real> := Wrappers.None)
      ensures Valid()
      ensures this.item == item && callCount == 0 && timeStamp == now
      ensures this.interval == (if interval.Some? then interval.value else 0.0)
      ensures cachingMode == EffectiveMode(mode, this.interval)
    {
      this.item := item;
      cachingMode := mode;
      this.interval := if interval.Some? then interval.value else 0.0;
      timeStamp := now;
      callCount := 0;
      new;
      if this.interval <= 0.0 {
        cachingMode := Permanent;
      }
    }

    /** The constructor's null check: a null item is rejected. */
    static method Create(item: Wrappers.Option<T>, now: int, mode: CacheMode := Permanent,
                         interval: Wrappers.Option<real> := Wrappers.None)
      returns (r: Wrappers.Result<CacheItem<T>, CacheError>)
      ensures item.None? <==> r.Failure?
      ensures r.Failure? ==> r.error == ArgumentNull("item")
      ensures r.Success? ==>
                && fresh(r.value) && r.value.Valid()
                && r.value.item == item.value && r.value.callCount == 0 && r.value.timeStamp == now
                && r.value.interval == (if interval.Some? then interval.value else 0.0)
                && r.value.cachingMode == EffectiveMode(mode, r.value.interval)
    {
      if item.None? {
        return Wrappers.Failure(ArgumentNull("item"));
      }
      var c := new CacheItem(item.value, now, mode, interval);
      return Wrappers.Success(c);
    }

    /** The Item getter: counts the read and returns the stored value. */
    method Item() returns (r: T)
      requires Valid()
      modifies this`callCount
      ensures Valid()
      ensures r == item && callCount == Increment32(old(callCount))
    {
      callCount := Increment32(callCount);
      r := item;
    }

    /** RenewIntervals: the counter restarts at 0 and the time stamp becomes `now`. */
    method RenewIntervals(now: int)
      requires Valid()
      modifies this`callCount, this`timeStamp
      ensures Valid()
      ensures callCount == 0 && timeStamp == now
    {
      callCount := 0;
      timeStamp := now;
    }
  }
}
