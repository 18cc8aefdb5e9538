/**
 * Fixed-width little-endian integers, as SmartBuffer reads and writes them
 * (writeUInt8, writeUInt32LE, writeInt32LE, writeBigInt64LE and their readers).
 * Decoders take the unread bytes and return the value together with the bytes
 * that follow it; `None` is a buffer underrun (SmartBuffer throws a RangeError).
 */
module Bytes {
  import opened Wrappers

  const TWO31: int := 0x8000_0000
  const TWO32: int := 0x1_0000_0000
  const TWO63: int := 0x8000_0000_0000_0000
  const TWO64: int := 0x1_0000_0000_0000_0000

  /** A byte of the buffer, as a number. */
  type byte = b: int | 0 <= b < 256

  type U8 = n: int | 0 <= n < 256
  type U32 = n: int | 0 <= n < 0x1_0000_0000
  type I32 = v: int | -0x8000_0000 <= v < 0x8000_0000
  type I64 = v: int | -0x8000_0000_0000_0000 <= v < 0x8000_0000_0000_0000

  /** A decoded value and the bytes left after it. */
  datatype Parsed<+T> = Parsed(value: T, rest: seq<byte>)

  function Pow256(w: nat): (r: nat)
    ensures r > 0
  {
    if w == 0 then 1 else 256 * Pow256(w - 1)
  }

  lemma PowersUsed()
    ensures Pow256(1) == 256 && Pow256(4) == TWO32 && Pow256(8) == TWO64
  {
  }

  /** The low `w` bytes of `n`, least significant first. */
  function LE(n: nat, w: nat): (r: seq<byte>)
    ensures |r| == w
  {
    if w == 0 then [] else [(n % 256) as byte] + LE(n / 256, w - 1)
  }

  /** The unsigned number whose little-endian bytes are `b`. */
  function FromLE(b: seq<byte>): (r: nat)
    ensures r < Pow256(|b|)
  {
    if b == [] then 0 else b[0] as nat + 256 * FromLE(b[1..])
  }

  lemma {:induction false} FromLEOfLE(n: nat, w: nat)
    requires n < Pow256(w)
    ensures FromLE(LE(n, w)) == n
  {
    if w > 0 {
      var q, e := n / 256, LE(n, w);
      DivBound(n, Pow256(w - 1));
      FromLEOfLE(q, w - 1);
      assert e[1..] == LE(q, w - 1);
      assert e[0] == (n % 256) as byte;
      assert FromLE(e) == n % 256 + 256 * q;
    }
  }

  lemma DivBound(n: nat, p: nat)
    requires n < 256 * p
    ensures n / 256 < p && n == n % 256 + 256 * (n / 256)
  {
  }

  lemma {:induction false} LEOfFromLE(b: seq<byte>)
    ensures LE(FromLE(b), |b|) == b
  {
    if b != [] {
      LEOfFromLE(b[1..]);
      assert FromLE(b) / 256 == FromLE(b[1..]);
      assert (FromLE(b) % 256) as byte == b[0];
    }
  }

  /** Regrouping appended pieces; the record proofs use it one piece at a time. */
  lemma AppendAssoc(a: seq<byte>, b: seq<byte>, c: seq<byte>)
    ensures a + b + c == a + (b + c)
  {
  }

  // ---- encoders (the writer side) ----

  /** The word zero is four zero bytes. */
  lemma ZeroBytes()
    ensures EncU32(0) == [0, 0, 0, 0]
  {
    assert LE(0, 1) == [0];
    assert LE(0, 2) == [0, 0];
    assert LE(0, 3) == [0, 0, 0];
  }

  function EncU8(n: U8): (r: seq<byte>)
    ensures |r| == 1
  {
    [n as byte]
  }

  function EncU32(n: U32): (r: seq<byte>)
    ensures |r| == 4
  {
    LE(n, 4)
  }

  /** Two's complement of a signed 32-bit value. */
  function EncI32(v: I32): (r: seq<byte>)
    ensures |r| == 4
  {
    LE(if v < 0 then v + TWO32 else v, 4)
  }

  /** Two's complement of a signed 64-bit value (writeBigInt64LE). */
  function EncI64(v: I64): (r: seq<byte>)
    ensures |r| == 8
  {
    LE(if v < 0 then v + TWO64 else v, 8)
  }

  // ---- decoders (the reader side) ----

  function DecU8(s: seq<byte>): (r: Option<Parsed<U8>>)
    ensures r.Some? <==> |s| >= 1
    ensures r.Some? ==> r.value.rest == s[1..]
  {
    if |s| < 1 then None else Some(Parsed(s[0] as U8, s[1..]))
  }

  function DecU32(s: seq<byte>): (r: Option<Parsed<U32>>)
    ensures r.Some? <==> |s| >= 4
    ensures r.Some? ==> r.value.rest == s[4..] && EncU32(r.value.value) == s[..4]
    ensures r.Some? ==> r.value.value == FromLE(s[..4])
  {
    if |s| < 4 then None
    else
      PowersUsed();
      LEOfFromLE(s[..4]);
      Some(Parsed(FromLE(s[..4]), s[4..]))
  }

  function DecI32(s: seq<byte>): (r: Option<Parsed<I32>>)
    ensures r.Some? <==> |s| >= 4
    ensures r.Some? ==> r.value.rest == s[4..] && EncI32(r.value.value) == s[..4]
  {
    if |s| < 4 then None
    else
      PowersUsed();
      LEOfFromLE(s[..4]);
      var u := FromLE(s[..4]);
      Some(Parsed(if u >= TWO31 then u - TWO32 else u, s[4..]))
  }

  function DecI64(s: seq<byte>): (r: Option<Parsed<I64>>)
    ensures r.Some? <==> |s| >= 8
    ensures r.Some? ==> r.value.rest == s[8..] && EncI64(r.value.value) == s[..8]
  {
    if |s| < 8 then None
    else
      PowersUsed();
      LEOfFromLE(s[..8]);
      var u := FromLE(s[..8]);
      Some(Parsed(if u >= TWO63 then u - TWO64 else u, s[8..]))
  }

  // ---- each decoder inverts its encoder ----

  lemma U8RoundTrip(n: U8, t: seq<byte>)
    ensures DecU8(EncU8(n) + t) == Some(Parsed(n, t))
  {
    assert (EncU8(n) + t)[1..] == t;
  }

  lemma U32RoundTrip(n: U32, t: seq<byte>)
    ensures DecU32(EncU32(n) + t) == Some(Parsed(n, t))
  {
    var s := EncU32(n) + t;
    assert s[..4] == EncU32(n) && s[4..] == t;
    PowersUsed();
    FromLEOfLE(n, 4);
  }

  lemma I32RoundTrip(v: I32, t: seq<byte>)
    ensures DecI32(EncI32(v) + t) == Some(Parsed(v, t))
  {
    var s := EncI32(v) + t;
    assert s[..4] == EncI32(v) && s[4..] == t;
    PowersUsed();
    FromLEOfLE(if v < 0 then v + TWO32 else v, 4);
  }

  lemma I64RoundTrip(v: I64, t: seq<byte>)
    ensures DecI64(EncI64(v) + t) == Some(Parsed(v, t))
  {
    var s := EncI64(v) + t;
    assert s[..8] == EncI64(v) && s[8..] == t;
    PowersUsed();
    FromLEOfLE(if v < 0 then v + TWO64 else v, 8);
  }

  /** A word written signed and read back unsigned: negatives come back shifted by 2^32. */
  lemma I32ReadAsU32(v: I32, t: seq<byte>)
    ensures DecU32(EncI32(v) + t) == Some(Parsed(if v < 0 then v + TWO32 else v, t))
  {
    var s := EncI32(v) + t;
    assert s[..4] == EncI32(v) && s[4..] == t;
    PowersUsed();
    FromLEOfLE(if v < 0 then v + TWO32 else v, 4);
  }
}
