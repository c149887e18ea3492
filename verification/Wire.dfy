/** The wire codec of proto.go: base-128 integers, booleans and length-tagged blobs.
    Each parser is given as a function on the bytes still to be read. */
module Wire {
  import opened Basics

  /** Why the receiver loop stops. `LengthPanic` is the run-time panic of `make` on a length no `int` can hold. */
  datatype Error =
    | Eof
    | BadBool(value: Byte)
    | LengthPanic(size: UInt64)
    | BadMagic(magic: Bytes)
    | BadOpcode(op: Byte)
    | Denied(reason: Bytes)
    | Dropped(reason: Bytes)

  /** What a parser makes of the input: a value and the bytes left over, or an error. */
  type Parsed<+T> = Result<(T, Bytes), Error>

  /** `long` is what the same parser says once `t` more bytes have arrived: only `Eof` can be revised. */
  ghost predicate Extends<T>(short: Parsed<T>, long: Parsed<T>, t: Bytes) {
    match short
    case Success((v, rest)) => long == Success((v, rest + t))
    case Failure(Eof) => true
    case Failure(e) => long == Failure(e)
  }

  // ----- base-128 integers

  function Pow128(i: nat): nat {
    if i == 0 then 1 else 128 * Pow128(i - 1)
  }

  /** The unreduced number a base-128 byte string denotes, least significant digit first. */
  function Value(bs: Bytes): nat {
    if bs == [] then 0 else bs[0] % 128 + 128 * Value(bs[1..])
  }

  /** Exactly the last byte lacks the continuation flag. */
  predicate Terminated(bs: Bytes) {
    && bs != []
    && bs[|bs| - 1] <= 127
    && forall i :: 0 <= i < |bs| - 1 ==> bs[i] > 127
  }

  function EncodeVarint(n: nat): (bs: Bytes)
    ensures Terminated(bs) && Value(bs) == n
  {
    if n <= 127 then [n] else [128 + n % 128] + EncodeVarint(n / 128)
  }

  /** Length of the leading terminated string, or 0 when no byte terminates one. */
  function Width(s: Bytes): (w: nat)
    ensures w > 0 ==> w <= |s| && Terminated(s[..w])
    ensures w == 0 ==> forall i :: 0 <= i < |s| ==> s[i] > 127
  {
    if s == [] then 0
    else if s[0] <= 127 then 1
    else
      var w := Width(s[1..]);
      if w == 0 then 0 else
      assert s[..w + 1] == [s[0]] + s[1..][..w];
      w + 1
  }

  function ParseVarint(s: Bytes): (r: Parsed<UInt64>)
    ensures if r.Success? then |r.value.1| < |s| else r.error.Eof?
  {
    var w := Width(s);
    if w == 0 then Failure(Eof) else Success((Value(s[..w]) % TWO_TO_64, s[w..]))
  }

  lemma {:induction false} WidthOfTerminated(bs: Bytes, t: Bytes)
    requires Terminated(bs)
    ensures Width(bs + t) == |bs|
  {
    if bs[0] > 127 {
      assert (bs + t)[1..] == bs[1..] + t;
      WidthOfTerminated(bs[1..], t);
    }
  }

  lemma {:induction false} Unterminated(s: Bytes)
    requires forall i :: 0 <= i < |s| ==> s[i] > 127
    ensures Width(s) == 0
  {
    if s != [] {
      Unterminated(s[1..]);
    }
  }

  /** Any terminated string, overlong ones included, is read as its value modulo 2^64, and nothing more is read. */
  lemma ParseTerminated(bs: Bytes, t: Bytes)
    requires Terminated(bs)
    ensures ParseVarint(bs + t) == Success((Value(bs) % TWO_TO_64, t))
  {
    WidthOfTerminated(bs, t);
    assert (bs + t)[..|bs|] == bs;
    assert (bs + t)[|bs|..] == t;
  }

  lemma VarintRoundTrip(n: UInt64, t: Bytes)
    ensures ParseVarint(EncodeVarint(n) + t) == Success((n, t))
    ensures |EncodeVarint(n)| <= 10
  {
    hide EncodeVarint, ParseVarint, Value, Width;
    ParseTerminated(EncodeVarint(n), t);
    assert Pow128(10) == 128 * 128 * 128 * 128 * 128 * 128 * 128 * Pow128(3);
    VarintLength(n, 10);
  }

  lemma {:induction false} VarintLength(n: nat, k: nat)
    requires k > 0 && n < Pow128(k)
    ensures |EncodeVarint(n)| <= k
  {
    if n > 127 {
      VarintLength(n / 128, k - 1);
    }
  }

  /** The encoding of a number, by its lowest digit and the number the others make up. */
  lemma EncodeDigits(low: nat, high: nat)
    requires low < 128
    ensures EncodeVarint(low + 128 * high) == if high == 0 then [low] else [128 + low] + EncodeVarint(high)
  {
    Digits(low, high);
    EncodeStep(low + 128 * high);
    hide EncodeVarint;
  }

  lemma Digits(low: nat, high: nat)
    requires low < 128
    ensures (low + 128 * high) % 128 == low && (low + 128 * high) / 128 == high
  {
  }

  lemma EncodeStep(n: nat)
    ensures EncodeVarint(n) == if n <= 127 then [n] else [128 + n % 128] + EncodeVarint(n / 128)
  {
  }

  /** The encoding of a number is no longer than `bs`, and is `bs` if it is as long. */
  ghost predicate Shortest(n: nat, bs: Bytes) {
    && |EncodeVarint(n)| <= |bs|
    && (|EncodeVarint(n)| == |bs| ==> EncodeVarint(n) == bs)
  }

  lemma ShortestCons(low: nat, high: nat, tail: Bytes)
    requires low < 128 && tail != [] && Shortest(high, tail)
    ensures Shortest(low + 128 * high, [128 + low] + tail)
  {
    hide EncodeVarint;
    EncodeDigits(low, high);
  }

  /** The encoding of `n` is the one shortest terminated string with value `n`. */
  lemma {:induction false} VarintCanonical(bs: Bytes)
    requires Terminated(bs)
    ensures Shortest(Value(bs), bs)
  {
    assert bs == [bs[0]] + bs[1..];
    if |bs| > 1 {
      var low, high := bs[0] % 128, Value(bs[1..]);
      assert Value(bs) == low + 128 * high && bs[0] == 128 + low;
      VarintCanonical(bs[1..]);
      hide Value, Shortest;
      ShortestCons(low, high, bs[1..]);
    }
  }

  /** No encoding is a prefix of another: a common stream determines the number and the remainder. */
  lemma VarintPrefixFree(a: nat, b: nat, s: Bytes, t: Bytes)
    requires EncodeVarint(a) + s == EncodeVarint(b) + t
    ensures a == b && s == t
  {
    var x, y := EncodeVarint(a), EncodeVarint(b);
    WidthOfTerminated(x, s);
    WidthOfTerminated(y, t);
    assert x == (x + s)[..|x|] && y == (y + t)[..|y|];
    assert s == (x + s)[|x|..] && t == (y + t)[|y|..];
  }

  lemma {:induction false} ValueSnoc(bs: Bytes, b: Byte)
    ensures Value(bs + [b]) == Value(bs) + b % 128 * Pow128(|bs|)
  {
    if bs == [] {
      assert (bs + [b])[1..] == [];
    } else {
      var digit, power := b % 128, Pow128(|bs| - 1);
      assert (bs + [b])[1..] == bs[1..] + [b];
      ValueSnoc(bs[1..], b);
      assert Value(bs[1..] + [b]) == Value(bs[1..]) + digit * power;
      assert Value(bs + [b]) == bs[0] % 128 + 128 * Value(bs[1..] + [b]);
      hide Value;
      assert digit * Pow128(|bs|) == 128 * (digit * power);
    }
  }

  /** Partial sums never pass the total. */
  lemma {:induction false} PartialValue(bs: Bytes, i: nat)
    requires i <= |bs|
    ensures Value(bs[..i]) <= Value(bs)
  {
    if i > 0 {
      assert bs[..i][1..] == bs[1..][..i - 1];
      PartialValue(bs[1..], i - 1);
    }
  }

  function Pow2(i: nat): nat {
    if i == 0 then 1 else 2 * Pow2(i - 1)
  }

  /** Go's `x << k` on a uint64; it is 0 once `k` reaches 64. */
  function ShiftLeft(x: UInt64, k: nat): UInt64 {
    x * Pow2(k) % TWO_TO_64
  }

  lemma {:induction false} Pow2Of7(i: nat)
    ensures Pow2(7 * i) == Pow128(i)
  {
    if i > 0 {
      Pow2Of7(i - 1);
      var k := 7 * i - 7;
      assert Pow2(k + 7) == 2 * Pow2(k + 6) == 4 * Pow2(k + 5) == 8 * Pow2(k + 4);
      assert Pow2(k + 4) == 2 * Pow2(k + 3) == 4 * Pow2(k + 2) == 8 * Pow2(k + 1);
    }
  }

  /** Reading back the encoding of a uint64 never overflows: in no turn of the loop are bits shifted out, or does
      the sum wrap around. */
  lemma VarintNoOverflow(n: UInt64, i: nat)
    requires i < |EncodeVarint(n)|
    ensures var bs := EncodeVarint(n);
            var term := ShiftLeft(bs[i] % 128, 7 * i);
            && term == bs[i] % 128 * Pow2(7 * i)
            && Value(bs[..i]) + term == Value(bs[..i + 1]) <= n
  {
    hide EncodeVarint, Value, Pow2, Pow128, ShiftLeft;
    var bs := EncodeVarint(n);
    Pow2Of7(i);
    ValueSnoc(bs[..i], bs[i]);
    assert bs[..i + 1] == bs[..i] + [bs[i]];
    PartialValue(bs, i + 1);
    NothingShiftedOut(bs[i] % 128, 7 * i);
  }

  lemma NothingShiftedOut(x: UInt64, k: nat)
    requires x * Pow2(k) < TWO_TO_64
    ensures ShiftLeft(x, k) == x * Pow2(k)
  {
    hide Pow2;
  }

  lemma WrapAdd(a: nat, b: nat)
    ensures (a % TWO_TO_64 + b % TWO_TO_64) % TWO_TO_64 == (a + b) % TWO_TO_64
  {
    var x, y := a / TWO_TO_64, b / TWO_TO_64;
    assert a + b == a % TWO_TO_64 + b % TWO_TO_64 + (x + y) * TWO_TO_64;
  }

  /** One turn of the reading loop: shifting and adding with wrap-around keeps the value read so far modulo 2^64. */
  lemma ShiftAndAdd(bs: Bytes, b: Byte)
    ensures (Value(bs) % TWO_TO_64 + ShiftLeft(b % 128, 7 * |bs|)) % TWO_TO_64 == Value(bs + [b]) % TWO_TO_64
  {
    hide Value, Pow2, Pow128;
    ValueSnoc(bs, b);
    Pow2Of7(|bs|);
    WrapAdd(Value(bs), b % 128 * Pow128(|bs|));
  }

  /** On any input: the bytes up to the first one below 128 are read, and the end of input is reported if there is none. */
  lemma VarintExact(s: Bytes)
    ensures (forall i :: 0 <= i < |s| ==> s[i] > 127) ==> ParseVarint(s) == Failure(Eof)
    ensures forall w :: 0 < w <= |s| && Terminated(s[..w]) ==>
              ParseVarint(s) == Success((Value(s[..w]) % TWO_TO_64, s[w..]))
  {
    if forall i :: 0 <= i < |s| ==> s[i] > 127 {
      Unterminated(s);
    }
    hide ParseVarint, Value;
    forall w | 0 < w <= |s| && Terminated(s[..w])
      ensures ParseVarint(s) == Success((Value(s[..w]) % TWO_TO_64, s[w..]))
    {
      ParseTerminated(s[..w], s[w..]);
      assert s == s[..w] + s[w..];
    }
  }

  lemma {:induction false} VarintExtends(s: Bytes, t: Bytes)
    ensures Extends(ParseVarint(s), ParseVarint(s + t), t)
  {
    var w := Width(s);
    if w > 0 {
      assert s + t == s[..w] + (s[w..] + t);
      ParseTerminated(s[..w], s[w..] + t);
    }
  }

  // ----- booleans

  function EncodeBool(b: bool): Bytes {
    if b then [1] else [0]
  }

  function ParseBool(s: Bytes): (r: Parsed<bool>)
    ensures if r.Success? then |r.value.1| < |s| else r.error.Eof? || r.error.BadBool?
  {
    if s == [] then Failure(Eof)
    else if s[0] == 0 then Success((false, s[1..]))
    else if s[0] == 1 then Success((true, s[1..]))
    else Failure(BadBool(s[0]))
  }

  lemma BoolRoundTrip(b: bool, t: Bytes)
    ensures ParseBool(EncodeBool(b) + t) == Success((b, t))
  {
    assert (EncodeBool(b) + t)[1..] == t;
  }

  /** A boolean is the byte 0 or 1, and every other byte is refused. */
  lemma BoolExact(b: Byte, t: Bytes)
    ensures ParseBool([b] + t) == if b == 0 then Success((false, t)) else if b == 1 then Success((true, t)) else Failure(BadBool(b))
    ensures ParseBool([]) == Failure(Eof)
  {
    assert ([b] + t)[1..] == t;
  }

  lemma BoolExtends(s: Bytes, t: Bytes)
    ensures Extends(ParseBool(s), ParseBool(s + t), t)
  {
    if s != [] {
      assert (s + t)[1..] == s[1..] + t;
    }
  }

  // ----- length-tagged blobs

  function EncodeBlob(b: Blob): Bytes {
    EncodeVarint(|b|) + b
  }

  function ParseBlob(s: Bytes): (r: Parsed<Blob>)
    ensures if r.Success? then |r.value.1| < |s| else r.error.Eof? || r.error.LengthPanic?
  {
    var (size, rest) :- ParseVarint(s);
    if size >= TWO_TO_63 then Failure(LengthPanic(size))
    else if size > |rest| then Failure(Eof)
    else Success((rest[..size], rest[size..]))
  }

  lemma BlobRoundTrip(b: Blob, t: Bytes)
    ensures ParseBlob(EncodeBlob(b) + t) == Success((b, t))
  {
    VarintRoundTrip(|b|, b + t);
    assert EncodeBlob(b) + t == EncodeVarint(|b|) + (b + t);
    assert (b + t)[..|b|] == b && (b + t)[|b|..] == t;
  }

  /** Whatever length is announced: that many bytes are read, unless fewer are left or no int can hold the length. */
  lemma BlobExact(size: UInt64, t: Bytes)
    ensures ParseBlob(EncodeVarint(size) + t)
         == if size >= TWO_TO_63 then Failure(LengthPanic(size))
            else if size > |t| then Failure(Eof)
            else Success((t[..size], t[size..]))
  {
    hide ParseVarint, EncodeVarint;
    VarintRoundTrip(size, t);
  }

  lemma BlobExtends(s: Bytes, t: Bytes)
    ensures Extends(ParseBlob(s), ParseBlob(s + t), t)
  {
    VarintExtends(s, t);
    match ParseVarint(s)
    case Failure(_) =>
    case Success((size, rest)) =>
      if size <= |rest| {
        assert (rest + t)[..size] == rest[..size];
        assert (rest + t)[size..] == rest[size..] + t;
      }
  }
}
