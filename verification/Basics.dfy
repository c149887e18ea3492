/** Bytes, Go's fixed-width integers and failure-compatible results. */
module Basics {

  type Byte = b: int | 0 <= b < 256
  type Bytes = seq<Byte>

  const TWO_TO_31: int := 0x8000_0000
  const TWO_TO_32: int := 0x1_0000_0000
  const TWO_TO_63: int := 0x8000_0000_0000_0000
  const TWO_TO_64: int := 0x1_0000_0000_0000_0000

  type UInt64 = n: int | 0 <= n < TWO_TO_64
  type Int64 = n: int | -TWO_TO_63 <= n < TWO_TO_63

  /** A Go slice or string: its length is an `int`. */
  type Blob = b: Bytes | |b| < TWO_TO_63

  datatype Option<+T> = None | Some(value: T)

  datatype Result<+T, +E> = Success(value: T) | Failure(error: E) {
    predicate IsFailure() {
      Failure?
    }

    function PropagateFailure<U>(): Result<U, E>
      requires Failure?
    {
      Failure(error)
    }

    function Extract(): T
      requires Success?
    {
      value
    }
  }

  /** Go's conversion `uint64(i)`. */
  function ToUInt64(i: Int64): UInt64 {
    i % TWO_TO_64
  }

  /** Go's conversion `int(u)` on a 64-bit platform; also the wrap-around of int64 arithmetic. */
  function ToInt64(u: int): Int64 {
    var r := u % TWO_TO_64;
    if r < TWO_TO_63 then r else r - TWO_TO_64
  }

  /** The wrap-around of int32 arithmetic. */
  function ToInt32(u: int): int {
    var r := u % TWO_TO_32;
    if r < TWO_TO_31 then r else r - TWO_TO_32
  }

  lemma IntRoundTrip(i: Int64)
    ensures ToInt64(ToUInt64(i)) == i
  {
  }

  /** Drops the element at index `i`. */
  function RemoveAt<T>(s: seq<T>, i: nat): seq<T>
    requires i < |s|
  {
    s[..i] + s[i + 1..]
  }

  function Sum(s: seq<nat>): nat {
    if s == [] then 0 else s[0] + Sum(s[1..])
  }

  lemma {:induction false} SumConcat(a: seq<nat>, b: seq<nat>)
    ensures Sum(a + b) == Sum(a) + Sum(b)
  {
    if a == [] {
      assert a + b == b;
    } else {
      assert (a + b)[1..] == a[1..] + b;
      SumConcat(a[1..], b);
    }
  }

  lemma SumOne(n: nat)
    ensures Sum([n]) == n
  {
  }

  lemma SumRemoveAt(s: seq<nat>, i: nat)
    requires i < |s|
    ensures Sum(RemoveAt(s, i)) == Sum(s) - s[i]
  {
    hide Sum;
    var before, at, after := s[..i], [s[i]], s[i + 1..];
    assert s == before + at + after;
    SumOne(s[i]);
    SumConcat(before, after);
    SumConcat(before + at, after);
    SumConcat(before, at);
  }

  /** Bytes held by a sequence of messages. */
  function Size(ms: seq<Bytes>): nat {
    if ms == [] then 0 else |ms[0]| + Size(ms[1..])
  }

  lemma {:induction false} SizeConcat(a: seq<Bytes>, b: seq<Bytes>)
    ensures Size(a + b) == Size(a) + Size(b)
  {
    if a == [] {
      assert a + b == b;
    } else {
      assert (a + b)[1..] == a[1..] + b;
      SizeConcat(a[1..], b);
    }
  }

  /** `k` times `d`, by repeated addition. */
  function Times(k: nat, d: nat): nat {
    if k == 0 then 0 else d + Times(k - 1, d)
  }

  lemma {:induction false} TimesIsProduct(k: nat, d: nat)
    ensures Times(k, d) == k * d
  {
    if k > 0 {
      TimesIsProduct(k - 1, d);
    }
  }

  lemma {:induction false} TimesMonotone(j: nat, k: nat, d: nat)
    requires j <= k
    ensures Times(j, d) <= Times(k, d)
  {
    if j < k {
      TimesMonotone(j, k - 1, d);
    }
  }
}
