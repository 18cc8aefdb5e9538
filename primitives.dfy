/**
 * The primitive encodings of the format, following Unreal Engine
 * serialization: FString, FTimespan, FDateTime, 32-bit booleans, float
 * aggregates (FVector2D, FVector, FVector4, FRotator, FLinearColor), enum
 * bytes and count-prefixed arrays. `Enc*` is what the writer appends,
 * `Dec*` what the reader consumes.
 */
module Primitives {
  import opened Wrappers
  import opened Bytes
  import Enums

  // ---- values ----

  /**
   * A 32-bit float, carried as its IEEE 754 bit pattern: writeFloatLE stores
   * exactly these 32 bits, least significant byte first.
   */
  datatype Float32 = Float32(bits: U32)

  datatype Vector2D = Vector2D(x: Float32, y: Float32)
  datatype Vector = Vector(x: Float32, y: Float32, z: Float32)
  datatype Vector4 = Vector4(x: Float32, y: Float32, z: Float32, w: Float32)
  datatype Rotator = Rotator(pitch: Float32, yaw: Float32, roll: Float32)
  datatype LinearColor = LinearColor(red: Float32, green: Float32, blue: Float32, alpha: Float32)

  /** A JavaScript string: a sequence of UTF-16 code units. */
  type CodeUnit = u: int | 0 <= u < 0x1_0000
  type Text = seq<CodeUnit>

  /** 100 ns ticks per millisecond. */
  const TicksPerMs: int := 10000
  /** Milliseconds from 0001-01-01 (the tick epoch) to 1970-01-01 (the Unix epoch). */
  const EpochOffsetMs: int := 62135596800000
  /** The largest millisecond count whose tick count fits a signed 64-bit integer. */
  const MaxMs: int := 922337203685477

  /** A duration in milliseconds (FTimespan). */
  type Millis = t: int | -MaxMs <= t <= MaxMs
  /** A Unix timestamp in milliseconds (FDateTime). */
  type DateMs = d: int | -MaxMs - EpochOffsetMs <= d <= MaxMs - EpochOffsetMs

  predicate IsAscii(s: Text) {
    forall i :: 0 <= i < |s| ==> s[i] < 0x80
  }

  /** The longest text whose FString length word (length + 1) fits an Int32. */
  predicate TextFits(s: Text) {
    |s| + 1 < TWO31
  }

  /** A text the reader gives back unchanged: it fits the length word and is ASCII. */
  predicate PlainText(s: Text) {
    TextFits(s) && IsAscii(s)
  }

  // ---- strings ----

  /** UTF-8 of one code unit, as Buffer.write produces it for the Basic Multilingual Plane. */
  function Utf8Unit(u: CodeUnit): (r: seq<byte>)
    ensures 1 <= |r| <= 3
    ensures |r| == 1 <==> u < 0x80
  {
    if u < 0x80 then [u as byte]
    else if u < 0x800 then [(0xC0 + u / 64) as byte, (0x80 + u % 64) as byte]
    else [(0xE0 + u / 4096) as byte, (0x80 + (u / 64) % 64) as byte, (0x80 + u % 64) as byte]
  }

  function Utf8(s: Text): seq<byte>
  {
    if s == [] then [] else Utf8(s[..|s| - 1]) + Utf8Unit(s[|s| - 1])
  }

  /** On ASCII text UTF-8 is one byte per unit, each byte the unit itself. */
  lemma {:induction false} Utf8OfAscii(s: Text)
    requires IsAscii(s)
    ensures Latin(Utf8(s)) == s
  {
    if s != [] {
      var p, u := s[..|s| - 1], s[|s| - 1];
      assert IsAscii(p) by {
        forall i | 0 <= i < |p| ensures p[i] < 0x80 { assert p[i] == s[i]; }
      }
      Utf8OfAscii(p);
      var x := u as byte;
      assert Utf8(s) == Utf8(p) + [x];
      LatinAppend(Utf8(p), x);
      SplitLast(s);
    } else {
      assert Utf8(s) == [];
    }
  }

  lemma SplitLast(s: Text)
    requires s != []
    ensures s == s[..|s| - 1] + [s[|s| - 1]]
  {
  }

  lemma LatinAppend(b: seq<byte>, x: byte)
    ensures Latin(b + [x]) == Latin(b) + [x as int]
  {
    assert (b + [x])[..|b|] == b;
  }

  /** Outside ASCII, UTF-8 is longer than the unit count the length word declares. */
  lemma {:induction false} Utf8Longer(s: Text, i: nat)
    requires i < |s| && s[i] >= 0x80
    ensures |Utf8(s)| > |s|
  {
    var p := s[..|s| - 1];
    if i < |s| - 1 {
      Utf8Longer(p, i);
    } else {
      Utf8AtLeast(p);
    }
  }

  lemma {:induction false} Utf8AtLeast(s: Text)
    ensures |Utf8(s)| >= |s|
  {
    if s != [] {
      Utf8AtLeast(s[..|s| - 1]);
    }
  }

  /**
   * FString as the writer emits it: a non-empty string is Int32(n + 1), the
   * string's UTF-8 bytes and a NUL; the empty string is the word 0 alone.
   */
  function EncFString(s: Text): seq<byte>
    requires TextFits(s)
  {
    if |s| > 0 then EncI32(|s| + 1) + Utf8(s) + [0] else EncI32(0)
  }

  /**
   * The FString of a non-empty ASCII text of n units is Int32(n + 1), the n
   * units as bytes and one NUL, n + 5 bytes in all; "" is four zero bytes.
   */
  lemma FStringLayout(s: Text)
    requires PlainText(s)
    ensures |s| > 0 ==>
      (|EncFString(s)| == |s| + 5 && EncFString(s)[..4] == EncI32(|s| + 1)
       && Latin(EncFString(s)[4..|s| + 4]) == s && EncFString(s)[|s| + 4] == 0)
    ensures |s| == 0 ==> EncFString(s) == [0, 0, 0, 0]
  {
    if |s| > 0 {
      Utf8OfAscii(s);
      var e := EncFString(s);
      assert e == EncI32(|s| + 1) + Utf8(s) + [0];
      assert e[4..|s| + 4] == Utf8(s);
    } else {
      ZeroBytes();
      assert EncI32(0) == EncU32(0);
    }
  }

  /** A single-byte (non-negative length) body read as one code unit per byte. */
  function Latin(b: seq<byte>): (r: Text)
    ensures |r| == |b|
  {
    if b == [] then [] else Latin(b[..|b| - 1]) + [b[|b| - 1] as int]
  }

  /** A UTF-16LE body: one code unit per byte pair; an odd last byte is ignored. */
  function Utf16(b: seq<byte>): (r: Text)
    ensures |r| == |b| / 2
    ensures forall i :: 0 <= i < |r| ==> r[i] == b[2 * i] as int + 256 * b[2 * i + 1] as int
  {
    if |b| < 2 then [] else [b[0] as int + 256 * b[1] as int] + Utf16(b[2..])
  }

  /** JavaScript's s.slice(0, -1): everything but the last unit; "" stays "". */
  function DropLast(s: Text): (r: Text)
    ensures |s| > 0 ==> s == r + [s[|s| - 1]]
    ensures |s| == 0 ==> r == []
  {
    if |s| == 0 then [] else s[..|s| - 1]
  }

  /**
   * readStr: an Int32 length L. For L >= 0 the next L bytes are the text, for
   * L < 0 the next 2|L| bytes are UTF-16LE; the last unit (the terminator) is
   * dropped. SmartBuffer.readString reads at most the bytes that remain, so a
   * short body is taken as it is rather than reported.
   */
  function DecStr(s: seq<byte>): (r: Option<Parsed<Text>>)
    ensures r.Some? <==> |s| >= 4
  {
    var p :- DecI32(s);
    var len := p.value;
    var n := if len < 0 then -2 * len else len;
    var m := if n <= |p.rest| then n else |p.rest|;
    var body := p.rest[..m];
    Some(Parsed(DropLast(if len < 0 then Utf16(body) else Latin(body)), p.rest[m..]))
  }

  lemma StrRoundTrip(s: Text, t: seq<byte>)
    requires TextFits(s) && IsAscii(s)
    ensures DecStr(EncFString(s) + t) == Some(Parsed(s, t))
  {
    if |s| == 0 {
      I32RoundTrip(0, t);
    } else {
      Utf8OfAscii(s);
      var body := Utf8(s) + [0];
      assert |Latin(Utf8(s))| == |Utf8(s)|;
      assert EncFString(s) + t == EncI32(|s| + 1) + (body + t);
      DecLatinStr(|s| + 1, body + t);
      assert (body + t)[..|body|] == body && (body + t)[|body|..] == t;
      LatinAppend(Utf8(s), 0);
    }
  }

  /**
   * Text with a non-ASCII unit does not round-trip: the length word counts
   * units, the body holds more bytes than that, so readStr stops inside the
   * body and leaves part of it in front of what followed. This holds however
   * the body's bytes are decoded.
   */
  lemma NonAsciiStrFails(s: Text, i: nat, t: seq<byte>)
    requires TextFits(s) && i < |s| && s[i] >= 0x80
    ensures DecStr(EncFString(s) + t).Some?
    ensures |DecStr(EncFString(s) + t).value.rest| > |t|
    ensures DecStr(EncFString(s) + t) != Some(Parsed(s, t))
  {
    Utf8Longer(s, i);
    var n := |s| + 1;
    var u := Utf8(s) + [0] + t;
    assert EncFString(s) + t == EncI32(n) + u;
    I32RoundTrip(n, u);
  }

  /** A non-negative length word is followed by that many single-byte units, the last dropped. */
  lemma DecLatinStr(len: I32, u: seq<byte>)
    requires 0 <= len <= |u|
    ensures DecStr(EncI32(len) + u) == Some(Parsed(DropLast(Latin(u[..len])), u[len..]))
  {
    I32RoundTrip(len, u);
  }

  /** A negative length word L is followed by 2|L| bytes of UTF-16LE, the last unit dropped. */
  lemma DecUtf16Str(len: I32, u: seq<byte>)
    requires len < 0 && -2 * (len as int) <= |u|
    ensures var n := -2 * (len as int);
      DecStr(EncI32(len) + u) == Some(Parsed(DropLast(Utf16(u[..n])), u[n..]))
      && |DropLast(Utf16(u[..n]))| == -(len as int) - 1
  {
    I32RoundTrip(len, u);
  }

  /**
   * A body cut short by the end of the buffer: SmartBuffer.readString reads
   * only the bytes that remain, so readStr returns those (less the last
   * unit) and consumes everything.
   */
  lemma {:induction false} DecShortLatinStr(len: I32, u: seq<byte>)
    requires |u| < len
    ensures DecStr(EncI32(len) + u) == Some(Parsed(DropLast(Latin(u)), []))
  {
    var s := EncI32(len) + u;
    I32RoundTrip(len, u);
    assert DecI32(s) == Some(Parsed(len, u));
    StrSteps(s, Parsed(len, u), |u|);
    assert u[..|u|] == u;
    assert u[|u|..] == [];
  }

  /** The UTF-16 branch of a body cut short: the remaining bytes, read by pairs. */
  lemma {:induction false} DecShortUtf16Str(len: I32, u: seq<byte>)
    requires len < 0 && |u| < -2 * (len as int)
    ensures DecStr(EncI32(len) + u) == Some(Parsed(DropLast(Utf16(u)), []))
  {
    var s := EncI32(len) + u;
    I32RoundTrip(len, u);
    assert DecI32(s) == Some(Parsed(len, u));
    StrSteps(s, Parsed(len, u), |u|);
    assert u[..|u|] == u;
    assert u[|u|..] == [];
  }

  /** readStr once the length word is read: a body of m bytes, m clamped to what remains. */
  lemma StrSteps(s: seq<byte>, p: Parsed<I32>, m: nat)
    requires DecI32(s) == Some(p) && m <= |p.rest|
    requires m == if p.value < 0 then (if -2 * p.value <= |p.rest| then -2 * p.value else |p.rest|)
                  else (if p.value <= |p.rest| then p.value as int else |p.rest|)
    ensures DecStr(s) == Some(Parsed(DropLast(if p.value < 0 then Utf16(p.rest[..m]) else Latin(p.rest[..m])), p.rest[m..]))
  {
  }

  // ---- times ----

  /** BigInt division of a tick count by 10000: the quotient truncated toward zero. */
  function TicksToMs(ticks: int): (ms: int)
    ensures ticks >= 0 ==> 0 <= ms * TicksPerMs <= ticks < ms * TicksPerMs + TicksPerMs
    ensures ticks < 0 ==> ms * TicksPerMs - TicksPerMs < ticks <= ms * TicksPerMs <= 0
  {
    if ticks >= 0 then ticks / TicksPerMs else -((-ticks) / TicksPerMs)
  }

  /** FTimespan: the duration as a signed 64-bit count of 100 ns ticks. */
  function EncTimespan(t: Millis): (r: seq<byte>)
    ensures |r| == 8
  {
    EncI64(t * TicksPerMs)
  }

  /** FDateTime: ticks since 0001-01-01, so the Unix offset is added first. */
  function EncDateTime(d: DateMs): (r: seq<byte>)
    ensures |r| == 8
  {
    EncI64((d + EpochOffsetMs) * TicksPerMs)
  }

  /** readTime: the tick count divided by 10000, truncated toward zero. */
  function DecTime(s: seq<byte>): (r: Option<Parsed<Millis>>)
    ensures r.Some? <==> |s| >= 8
  {
    var p :- DecI64(s);
    Some(Parsed(TicksToMs(p.value), p.rest))
  }

  /** readDate: readTime less the Unix offset. */
  function DecDate(s: seq<byte>): (r: Option<Parsed<DateMs>>)
    ensures r.Some? <==> |s| >= 8
  {
    var p :- DecTime(s);
    Some(Parsed(p.value - EpochOffsetMs, p.rest))
  }

  lemma TimeRoundTrip(t: Millis, u: seq<byte>)
    ensures DecTime(EncTimespan(t) + u) == Some(Parsed(t, u))
  {
    I64RoundTrip(t * TicksPerMs, u);
  }

  lemma DateRoundTrip(d: DateMs, u: seq<byte>)
    ensures DecDate(EncDateTime(d) + u) == Some(Parsed(d, u))
  {
    I64RoundTrip((d + EpochOffsetMs) * TicksPerMs, u);
  }

  // ---- booleans ----

  /** writeUInt32LE(b ? 1 : 0). */
  function EncBool(b: bool): (r: seq<byte>)
    ensures |r| == 4
  {
    EncU32(if b then 1 else 0)
  }

  /** A boolean field reads as UInt32 > 0. */
  function DecBool(s: seq<byte>): (r: Option<Parsed<bool>>)
    ensures r.Some? <==> |s| >= 4
  {
    var p :- DecU32(s);
    Some(Parsed(p.value > 0, p.rest))
  }

  /** Any nonzero word reads as true, not only the 1 the writer stores. */
  lemma BoolReadsNonzero(s: seq<byte>)
    requires |s| >= 4
    ensures DecBool(s).Some? && DecBool(s).value.rest == s[4..]
    ensures DecBool(s).value.value <==> s[..4] != [0, 0, 0, 0]
  {
    ZeroWord(DecU32(s).value.value);
  }

  lemma ZeroWord(v: U32)
    ensures EncU32(v) == [0, 0, 0, 0] <==> v == 0
  {
    PowersUsed();
    FromLEOfLE(v, 4);
    assert FromLE([0, 0, 0, 0]) == 0;
  }

  lemma BoolRoundTrip(b: bool, t: seq<byte>)
    ensures DecBool(EncBool(b) + t) == Some(Parsed(b, t))
  {
    U32RoundTrip(if b then 1 else 0, t);
  }

  // ---- enum bytes ----

  /**
   * The byte written for an enum field: the code of a table name; anything
   * else (a missing field, a name not in the table) is coerced by
   * writeUInt8 to NaN and stored as 0.
   */
  function EnumCode(t: Enums.Table, v: Option<string>): (c: U8)
    requires |t| <= 256
  {
    match v
    case None => 0
    case Some(name) =>
      match Enums.Code(t, name)
      case None => 0
      case Some(c) => c
  }

  /** The byte is the name's code when the name is in the table, and 0 otherwise. */
  lemma EnumCodeMeaning(t: Enums.Table, v: Option<string>)
    requires |t| <= 256
    ensures v.Some? && v.value in t ==> EnumCode(t, v) < |t| && t[EnumCode(t, v)] == v.value
    ensures !(v.Some? && v.value in t) ==> EnumCode(t, v) == 0
  {
  }

  function EncEnum(t: Enums.Table, v: Option<string>): (r: seq<byte>)
    requires |t| <= 256
    ensures |r| == 1
  {
    EncU8(EnumCode(t, v))
  }

  /** An enum byte through the table: a code with no name yields None (JavaScript's undefined). */
  function DecEnum(t: Enums.Table, s: seq<byte>): (r: Option<Parsed<Option<string>>>)
    ensures r.Some? <==> |s| >= 1
  {
    var p :- DecU8(s);
    Some(Parsed(Enums.Name(t, p.value), p.rest))
  }

  /** An enum field holding a name of its table. */
  predicate Named(t: Enums.Table, v: Option<string>) {
    v.Some? && v.value in t
  }

  lemma EnumRoundTrip(t: Enums.Table, v: Option<string>, u: seq<byte>)
    requires |t| <= 256
    requires Named(t, v)
    ensures DecEnum(t, EncEnum(t, v) + u) == Some(Parsed(v, u))
  {
    U8RoundTrip(EnumCode(t, v), u);
  }

  // ---- floats and float aggregates ----

  /** writeFloatLE: the float's bit pattern, little-endian. */
  function EncFloat(f: Float32): (r: seq<byte>)
    ensures |r| == 4
  {
    EncU32(f.bits)
  }

  /** readFloatLE: the next four bytes as a bit pattern. */
  function DecFloat(s: seq<byte>): (r: Option<Parsed<Float32>>)
    ensures r.Some? <==> |s| >= 4
    ensures r.Some? ==> r.value.rest == s[4..] && EncFloat(r.value.value) == s[..4]
  {
    var p :- DecU32(s);
    Some(Parsed(Float32(p.value), p.rest))
  }

  lemma FloatRoundTrip(f: Float32, t: seq<byte>)
    ensures DecFloat(EncFloat(f) + t) == Some(Parsed(f, t))
  {
    U32RoundTrip(f.bits, t);
  }

  function EncVector2D(v: Vector2D): (b: seq<byte>)
    ensures |b| == 8
  {
    EncFloat(v.x) + EncFloat(v.y)
  }

  function EncVector(v: Vector): (b: seq<byte>)
    ensures |b| == 12
  {
    EncFloat(v.x) + EncFloat(v.y) + EncFloat(v.z)
  }

  function EncVector4(v: Vector4): (b: seq<byte>)
    ensures |b| == 16
  {
    EncFloat(v.x) + EncFloat(v.y) + EncFloat(v.z) + EncFloat(v.w)
  }

  function EncRotator(r: Rotator): (b: seq<byte>)
    ensures |b| == 12
  {
    EncFloat(r.pitch) + EncFloat(r.yaw) + EncFloat(r.roll)
  }

  function EncLinearColor(c: LinearColor): (b: seq<byte>)
    ensures |b| == 16
  {
    EncFloat(c.red) + EncFloat(c.green) + EncFloat(c.blue) + EncFloat(c.alpha)
  }

  function DecVector2D(s: seq<byte>): (r: Option<Parsed<Vector2D>>)
    ensures r.Some? <==> |s| >= 8
  {
    var x :- DecFloat(s);
    var y :- DecFloat(x.rest);
    Some(Parsed(Vector2D(x.value, y.value), y.rest))
  }

  function DecVector(s: seq<byte>): (r: Option<Parsed<Vector>>)
    ensures r.Some? <==> |s| >= 12
  {
    var x :- DecFloat(s);
    var y :- DecFloat(x.rest);
    var z :- DecFloat(y.rest);
    Some(Parsed(Vector(x.value, y.value, z.value), z.rest))
  }

  function DecVector4(s: seq<byte>): (r: Option<Parsed<Vector4>>)
    ensures r.Some? <==> |s| >= 16
  {
    var x :- DecFloat(s);
    var y :- DecFloat(x.rest);
    var z :- DecFloat(y.rest);
    var w :- DecFloat(z.rest);
    Some(Parsed(Vector4(x.value, y.value, z.value, w.value), w.rest))
  }

  function DecRotator(s: seq<byte>): (r: Option<Parsed<Rotator>>)
    ensures r.Some? <==> |s| >= 12
  {
    var pitch :- DecFloat(s);
    var yaw :- DecFloat(pitch.rest);
    var roll :- DecFloat(yaw.rest);
    Some(Parsed(Rotator(pitch.value, yaw.value, roll.value), roll.rest))
  }

  function DecLinearColor(s: seq<byte>): (r: Option<Parsed<LinearColor>>)
    ensures r.Some? <==> |s| >= 16
  {
    var red :- DecFloat(s);
    var green :- DecFloat(red.rest);
    var blue :- DecFloat(green.rest);
    var alpha :- DecFloat(blue.rest);
    Some(Parsed(LinearColor(red.value, green.value, blue.value, alpha.value), alpha.rest))
  }

  lemma Vector2DRoundTrip(v: Vector2D, t: seq<byte>)
    ensures DecVector2D(EncVector2D(v) + t) == Some(Parsed(v, t))
  {
    AppendAssoc(EncFloat(v.x), EncFloat(v.y), t);
    FloatRoundTrip(v.x, EncFloat(v.y) + t);
    FloatRoundTrip(v.y, t);
  }

  lemma VectorRoundTrip(v: Vector, t: seq<byte>)
    ensures DecVector(EncVector(v) + t) == Some(Parsed(v, t))
  {
    var r2 := EncFloat(v.z) + t;
    var r1 := EncFloat(v.y) + r2;
    AppendAssoc(EncFloat(v.x) + EncFloat(v.y), EncFloat(v.z), t);
    AppendAssoc(EncFloat(v.x), EncFloat(v.y), r2);
    FloatRoundTrip(v.x, r1);
    FloatRoundTrip(v.y, r2);
    FloatRoundTrip(v.z, t);
  }

  lemma Vector4RoundTrip(v: Vector4, t: seq<byte>)
    ensures DecVector4(EncVector4(v) + t) == Some(Parsed(v, t))
  {
    var r3 := EncFloat(v.w) + t;
    var r2 := EncFloat(v.z) + r3;
    var r1 := EncFloat(v.y) + r2;
    AppendAssoc(EncFloat(v.x) + EncFloat(v.y) + EncFloat(v.z), EncFloat(v.w), t);
    AppendAssoc(EncFloat(v.x) + EncFloat(v.y), EncFloat(v.z), r3);
    AppendAssoc(EncFloat(v.x), EncFloat(v.y), r2);
    FloatRoundTrip(v.x, r1);
    FloatRoundTrip(v.y, r2);
    FloatRoundTrip(v.z, r3);
    FloatRoundTrip(v.w, t);
  }

  lemma RotatorRoundTrip(v: Rotator, t: seq<byte>)
    ensures DecRotator(EncRotator(v) + t) == Some(Parsed(v, t))
  {
    var r2 := EncFloat(v.roll) + t;
    var r1 := EncFloat(v.yaw) + r2;
    AppendAssoc(EncFloat(v.pitch) + EncFloat(v.yaw), EncFloat(v.roll), t);
    AppendAssoc(EncFloat(v.pitch), EncFloat(v.yaw), r2);
    FloatRoundTrip(v.pitch, r1);
    FloatRoundTrip(v.yaw, r2);
    FloatRoundTrip(v.roll, t);
  }

  lemma LinearColorRoundTrip(c: LinearColor, t: seq<byte>)
    ensures DecLinearColor(EncLinearColor(c) + t) == Some(Parsed(c, t))
  {
    var r3 := EncFloat(c.alpha) + t;
    var r2 := EncFloat(c.blue) + r3;
    var r1 := EncFloat(c.green) + r2;
    AppendAssoc(EncFloat(c.red) + EncFloat(c.green) + EncFloat(c.blue), EncFloat(c.alpha), t);
    AppendAssoc(EncFloat(c.red) + EncFloat(c.green), EncFloat(c.blue), r3);
    AppendAssoc(EncFloat(c.red), EncFloat(c.green), r2);
    FloatRoundTrip(c.red, r1);
    FloatRoundTrip(c.green, r2);
    FloatRoundTrip(c.blue, r3);
    FloatRoundTrip(c.alpha, t);
  }
}
