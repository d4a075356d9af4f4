/** Shared vocabulary: optional and failing results, fixed-width arithmetic and time. */
module Prelude {

  datatype Option<+T> = None | Some(value: T)

  datatype Result<+T, +E> = Ok(value: T) | Err(error: E)

  /** What becomes of a remote call: it takes effect, fails before it does, or takes effect and loses its
      reply. */
  datatype Call = Works | Fails | ReplyLost

  const MAX_INT32 := 0x7fff_ffff

  type int32 = x: int | -0x8000_0000 <= x <= 0x7fff_ffff

  /** Conversion to a 32-bit signed integer, with the wrap-around of the source language. */
  function Wrap32(x: int): (r: int32)
    ensures -0x8000_0000 <= x <= MAX_INT32 ==> r == x
  {
    (x + 0x8000_0000) % 0x1_0000_0000 - 0x8000_0000
  }

  /** Instants and durations are counted in nanoseconds. */
  type Time = int

  const MILLISECOND := 1_000_000
  const SECOND := 1_000_000_000
  const MAX_DURATION := 0x7fff_ffff_ffff_ffff

  /** The difference of two instants; it saturates at the ends of a 64-bit duration. */
  function Since(later: Time, earlier: Time): int {
    if later - earlier > MAX_DURATION then MAX_DURATION
    else if later - earlier < -MAX_DURATION - 1 then -MAX_DURATION - 1
    else later - earlier
  }

  /** Two prefixes of one string are comparable. */
  lemma Comparable(a: string, b: string, s: string)
    requires a <= s && b <= s
    ensures a <= b || b <= a
  {
  }

  function Max(a: int, b: int): int {
    if a < b then b else a
  }

  function Min(a: int, b: int): int {
    if a < b then a else b
  }
}

/** Sums of an integer function over a finite set. */
module Sums {

  ghost function Sum<K>(keys: set<K>, f: K -> int): int {
    if keys == {} then 0 else var k :| k in keys; f(k) + Sum(keys - {k}, f)
  }

  /** Any element can be taken out first. */
  lemma {:induction false} SumSplit<K>(keys: set<K>, f: K -> int, k: K)
    requires k in keys
    ensures Sum(keys, f) == f(k) + Sum(keys - {k}, f)
  {
    var first :| first in keys && Sum(keys, f) == f(first) + Sum(keys - {first}, f);
    if first != k {
      SumSplit(keys - {first}, f, k);
      SumSplit(keys - {k}, f, first);
      assert keys - {first} - {k} == keys - {k} - {first};
    }
  }

  lemma {:induction false} SumLe<K>(keys: set<K>, f: K -> int, g: K -> int)
    requires forall k :: k in keys ==> f(k) <= g(k)
    ensures Sum(keys, f) <= Sum(keys, g)
  {
    if keys != {} {
      var k :| k in keys;
      SumSplit(keys, f, k);
      SumSplit(keys, g, k);
      SumLe(keys - {k}, f, g);
    }
  }

  lemma SumEq<K>(keys: set<K>, f: K -> int, g: K -> int)
    requires forall k :: k in keys ==> f(k) == g(k)
    ensures Sum(keys, f) == Sum(keys, g)
  {
    SumLe(keys, f, g);
    SumLe(keys, g, f);
  }

  lemma {:induction false} SumUnion<K>(a: set<K>, b: set<K>, f: K -> int)
    requires a !! b
    ensures Sum(a + b, f) == Sum(a, f) + Sum(b, f)
  {
    if a == {} {
      assert a + b == b;
    } else {
      var k :| k in a;
      SumSplit(a, f, k);
      SumSplit(a + b, f, k);
      assert a + b - {k} == (a - {k}) + b;
      SumUnion(a - {k}, b, f);
    }
  }

  lemma {:induction false} SumAdd<K>(keys: set<K>, f: K -> int, g: K -> int, h: K -> int)
    requires forall k :: k in keys ==> h(k) == f(k) + g(k)
    ensures Sum(keys, h) == Sum(keys, f) + Sum(keys, g)
  {
    if keys != {} {
      var k :| k in keys;
      SumSplit(keys, f, k);
      SumSplit(keys, g, k);
      SumSplit(keys, h, k);
      SumAdd(keys - {k}, f, g, h);
    }
  }

  lemma {:induction false} SumNonNegative<K>(keys: set<K>, f: K -> int)
    requires forall k :: k in keys ==> 0 <= f(k)
    ensures 0 <= Sum(keys, f)
  {
    if keys != {} {
      var k :| k in keys;
      SumSplit(keys, f, k);
      SumNonNegative(keys - {k}, f);
    }
  }
}
