/**
 * hsp2json's side of SmartBuffer: the decompressed payload with an
 * advancing read offset. Each read method is proved against the decoder of
 * the same layout (Bytes, Primitives, Fields, Schema): it fails exactly when
 * the decoder finds the buffer too short (SmartBuffer's RangeError), and
 * otherwise returns the decoder's value and leaves the offset where the
 * decoder's rest begins.
 */
module Reader {
  import opened Wrappers
  import opened Bytes
  import opened Primitives
  import opened Fields
  import opened Project
  import opened Schema
  import Container
  import Enums

  /** A read agrees with a decoder: both fail, or both give the same value and leave the same bytes. */
  predicate Agrees<T(==)>(d: Option<Parsed<T>>, r: Option<T>, rest: seq<byte>) {
    match d
    case None => r.None?
    case Some(p) => r == Some(p.value) && rest == p.rest
  }

  /** A record list read after `acc`: the records read so far in front of those still to come. */
  function Prepend(acc: seq<Field>, o: Option<Parsed<seq<Field>>>): Option<Parsed<seq<Field>>> {
    match o
    case None => None
    case Some(q) => Some(Parsed(acc + q.value, q.rest))
  }

  lemma PrependNothing(o: Option<Parsed<seq<Field>>>)
    ensures Prepend([], o) == o
  {
    if o.Some? {
      assert [] + o.value.value == o.value.value;
    }
  }

  /** Reading the kinds from position i on: the kind at i, then the kinds after it. */
  lemma FieldsFrom(ks: seq<Kind>, i: nat, s: seq<byte>, acc: seq<Field>)
    requires i < |ks|
    ensures Prepend(acc, DecFields(ks[i..], s)) ==
      match DecField(ks[i], s)
      case None => None
      case Some(p) => Prepend(acc + [p.value], DecFields(ks[i + 1..], p.rest))
  {
    assert ks[i..][0] == ks[i] && ks[i..][1..] == ks[i + 1..];
    match DecField(ks[i], s)
    case None =>
    case Some(p) =>
      match DecFields(ks[i + 1..], p.rest)
      case None =>
      case Some(q) => assert acc + ([p.value] + q.value) == acc + [p.value] + q.value;
  }

  /** Once readArray's loop has failed, it stays failed whatever the count. */
  lemma {:induction false} ElemsFailFrom(s: seq<byte>, i: nat, n: nat, ks: seq<Kind>)
    requires i <= n && DecElems(s, i, ks).None?
    ensures DecElems(s, n, ks).None?
  {
    if i < n {
      ElemsFailFrom(s, i, n - 1, ks);
      ElemsFailStep(s, n, ks);
    }
  }

  /** A failed round of readArray's loop fails the next one too. */
  lemma ElemsFailStep(s: seq<byte>, n: nat, ks: seq<Kind>)
    requires n > 0 && DecElems(s, n - 1, ks).None?
    ensures DecElems(s, n, ks).None?
  {
  }

  class Reader {
    /** The buffer SmartBuffer.fromBuffer wraps; reads never change it. */
    const buf: seq<byte>
    var readOffset: nat

    /** SmartBuffer.fromBuffer(file): the offset at 0. */
    constructor FromBuffer(file: seq<byte>)
      ensures Valid() && buf == file && readOffset == 0 && Remaining() == file
    {
      buf := file;
      readOffset := 0;
    }

    /** The offset never lies past the end of the buffer. */
    predicate Valid()
      reads this
    {
      readOffset <= |buf|
    }

    /** The bytes not read yet. */
    function Remaining(): (r: seq<byte>)
      reads this
      requires Valid()
      ensures |r| == |buf| - readOffset
    {
      buf[readOffset..]
    }

    /** The next n bytes, the offset moved past them; a RangeError when fewer remain. */
    method Take(n: nat) returns (r: Option<seq<byte>>)
      requires Valid()
      modifies this
      ensures Valid()
      ensures r.Some? <==> n <= |old(Remaining())|
      ensures r.Some? ==> r.value == old(Remaining())[..n] && Remaining() == old(Remaining())[n..]
    {
      if |buf| - readOffset < n {
        return None;
      }
      r := Some(buf[readOffset..readOffset + n]);
      readOffset := readOffset + n;
    }

    method ReadUInt8() returns (r: Option<U8>)
      requires Valid()
      modifies this
      ensures Valid()
      ensures Agrees(DecU8(old(Remaining())), r, Remaining())
    {
      var b :- Take(1);
      return Some(b[0]);
    }

    method ReadUInt32LE() returns (r: Option<U32>)
      requires Valid()
      modifies this
      ensures Valid()
      ensures Agrees(DecU32(old(Remaining())), r, Remaining())
    {
      var b :- Take(4);
      PowersUsed();
      return Some(FromLE(b));
    }

    method ReadInt32LE() returns (r: Option<I32>)
      requires Valid()
      modifies this
      ensures Valid()
      ensures Agrees(DecI32(old(Remaining())), r, Remaining())
    {
      var b :- Take(4);
      PowersUsed();
      var u := FromLE(b);
      return Some(if u >= TWO31 then u - TWO32 else u);
    }

    method ReadBigInt64LE() returns (r: Option<I64>)
      requires Valid()
      modifies this
      ensures Valid()
      ensures Agrees(DecI64(old(Remaining())), r, Remaining())
    {
      var b :- Take(8);
      PowersUsed();
      var u := FromLE(b);
      return Some(if u >= TWO63 then u - TWO64 else u);
    }

    /** readFloatLE: four bytes taken as the float's bit pattern. */
    method ReadFloatLE() returns (r: Option<Float32>)
      requires Valid()
      modifies this
      ensures Valid()
      ensures Agrees(DecFloat(old(Remaining())), r, Remaining())
    {
      var bits :- ReadUInt32LE();
      return Some(Float32(bits));
    }

    /**
     * readString(length, encoding): at most the bytes that remain, decoded
     * one unit per byte, or per byte pair for UTF-16LE.
     */
    method ReadString(length: nat, utf16: bool) returns (s: Text)
      requires Valid()
      modifies this
      ensures Valid()
      ensures var m := if length <= |old(Remaining())| then length else |old(Remaining())|;
        s == (if utf16 then Utf16(old(Remaining())[..m]) else Latin(old(Remaining())[..m]))
        && Remaining() == old(Remaining())[m..]
    {
      ghost var s0 := Remaining();
      var m := if length <= |buf| - readOffset then length else |buf| - readOffset;
      var body := buf[readOffset..readOffset + m];
      assert body == s0[..m];
      readOffset := readOffset + m;
      assert Remaining() == s0[m..];
      s := if utf16 then Utf16(body) else Latin(body);
    }

    /** readStr: a signed length, a negative one counting UTF-16 units; the terminator is dropped. */
    method ReadStr() returns (r: Option<Text>)
      requires Valid()
      modifies this
      ensures Valid()
      ensures Agrees(DecStr(old(Remaining())), r, Remaining())
    {
      var len :- ReadInt32LE();
      var n: nat := if len < 0 then -2 * (len as int) else len;
      var s := ReadString(n, len < 0);
      return Some(DropLast(s));
    }

    /** readTime: the tick count divided by 10000, truncated toward zero. */
    method ReadTime() returns (r: Option<Millis>)
      requires Valid()
      modifies this
      ensures Valid()
      ensures Agrees(DecTime(old(Remaining())), r, Remaining())
    {
      var ticks :- ReadBigInt64LE();
      return Some(TicksToMs(ticks));
    }

    /** readDate: readTime less the Unix offset. */
    method ReadDate() returns (r: Option<DateMs>)
      requires Valid()
      modifies this
      ensures Valid()
      ensures Agrees(DecDate(old(Remaining())), r, Remaining())
    {
      var t :- ReadTime();
      return Some(t - EpochOffsetMs);
    }

    /** readFVector2D: x, then y. */
    method ReadFVector2D() returns (r: Option<Vector2D>)
      requires Valid()
      modifies this
      ensures Valid()
      ensures Agrees(DecVector2D(old(Remaining())), r, Remaining())
    {
      var x :- ReadFloatLE();
      var y :- ReadFloatLE();
      return Some(Vector2D(x, y));
    }

    /** readFVector: x, y, then z. */
    method ReadFVector() returns (r: Option<Vector>)
      requires Valid()
      modifies this
      ensures Valid()
      ensures Agrees(DecVector(old(Remaining())), r, Remaining())
    {
      var x :- ReadFloatLE();
      var y :- ReadFloatLE();
      var z :- ReadFloatLE();
      return Some(Vector(x, y, z));
    }

    /** readFVector4: x, y, z, then w. */
    method ReadFVector4() returns (r: Option<Vector4>)
      requires Valid()
      modifies this
      ensures Valid()
      ensures Agrees(DecVector4(old(Remaining())), r, Remaining())
    {
      var x :- ReadFloatLE();
      var y :- ReadFloatLE();
      var z :- ReadFloatLE();
      var w :- ReadFloatLE();
      return Some(Vector4(x, y, z, w));
    }

    /** readFRotator: pitch, yaw, then roll. */
    method ReadFRotator() returns (r: Option<Rotator>)
      requires Valid()
      modifies this
      ensures Valid()
      ensures Agrees(DecRotator(old(Remaining())), r, Remaining())
    {
      var pitch :- ReadFloatLE();
      var yaw :- ReadFloatLE();
      var roll :- ReadFloatLE();
      return Some(Rotator(pitch, yaw, roll));
    }

    /** readFLinearColor: red, green, blue, then alpha. */
    method ReadFLinearColor() returns (r: Option<LinearColor>)
      requires Valid()
      modifies this
      ensures Valid()
      ensures Agrees(DecLinearColor(old(Remaining())), r, Remaining())
    {
      var red :- ReadFloatLE();
      var green :- ReadFloatLE();
      var blue :- ReadFloatLE();
      var alpha :- ReadFloatLE();
      return Some(LinearColor(red, green, blue, alpha));
    }

    /**
     * One property of a record lambda: the read call for its kind. A boolean
     * is `readUInt32LE() > 0`, an enum is the table entry of `readUInt8()`.
     */
    method ReadField(k: Kind) returns (r: Option<Field>)
      requires Valid()
      modifies this
      ensures Valid()
      ensures Agrees(DecField(k, old(Remaining())), r, Remaining())
    {
      match k
      case TextKind =>
        var s :- ReadStr();
        return Some(TextField(s));
      case DateTimeKind =>
        var d :- ReadDate();
        return Some(DateTimeField(d));
      case TimespanKind =>
        var t :- ReadTime();
        return Some(TimespanField(t));
      case UInt32Kind =>
        var w :- ReadUInt32LE();
        return Some(UInt32Field(w));
      case Int32Kind =>
        var v :- ReadInt32LE();
        return Some(Int32Field(v));
      case BoolKind =>
        var w :- ReadUInt32LE();
        return Some(BoolField(w > 0));
      case FloatKind =>
        var x :- ReadFloatLE();
        return Some(FloatField(x));
      case Vector2DKind =>
        var v :- ReadFVector2D();
        return Some(Vector2DField(v));
      case VectorKind =>
        var v :- ReadFVector();
        return Some(VectorField(v));
      case Vector4Kind =>
        var v :- ReadFVector4();
        return Some(Vector4Field(v));
      case RotatorKind =>
        var v :- ReadFRotator();
        return Some(RotatorField(v));
      case LinearColorKind =>
        var c :- ReadFLinearColor();
        return Some(LinearColorField(c));
      case EnumKind(t) =>
        var code :- ReadUInt8();
        return Some(EnumField(t, Enums.Name(t, code)));
    }

    /** A record lambda's object literal: one read per property, in property order. */
    method ReadFields(ks: seq<Kind>) returns (r: Option<seq<Field>>)
      requires Valid()
      modifies this
      ensures Valid()
      ensures Agrees(DecFields(ks, old(Remaining())), r, Remaining())
    {
      ghost var s0 := Remaining();
      var acc: seq<Field> := [];
      PrependNothing(DecFields(ks, s0));
      assert ks[0..] == ks;
      for i := 0 to |ks|
        invariant Valid()
        invariant DecFields(ks, s0) == Prepend(acc, DecFields(ks[i..], Remaining()))
      {
        ghost var s := Remaining();
        FieldsFrom(ks, i, s, acc);
        var f := ReadField(ks[i]);
        if f.None? {
          return None;
        }
        acc := acc + [f.value];
      }
      assert ks[|ks|..] == [] && acc + [] == acc;
      return Some(acc);
    }

    /**
     * readArray(type): a UInt32 count, then the callback's record that many
     * times, each object pushed after the ones before it.
     */
    method ReadArray<T(==)>(ks: seq<Kind>, build: seq<Field> --> T) returns (r: Option<seq<T>>)
      requires Valid()
      requires forall fs :: Shaped(fs, ks) ==> build.requires(fs)
      modifies this
      ensures Valid()
      ensures Agrees(DecObjects(old(Remaining()), ks, build), r, Remaining())
    {
      ghost var s0 := Remaining();
      var len :- ReadUInt32LE();
      ghost var s1 := Remaining();
      var arr: seq<T> := [];
      ghost var records: seq<seq<Field>> := [];
      for i := 0 to len
        invariant Valid()
        invariant DecElems(s1, i, ks) == Some(Parsed(records, Remaining()))
        invariant AllShaped(records, ks) && arr == Objects(records, build)
      {
        var fs := ReadFields(ks);
        if fs.None? {
          ElemsFailFrom(s1, i + 1, len, ks);
          return None;
        }
        assert (records + [fs.value])[..i] == records;
        records := records + [fs.value];
        arr := arr + [build(fs.value)];
      }
      return Some(arr);
    }

    /** parse's thirteen readArray calls, in track order. */
    method ReadProjectionKeyFrames() returns (r: Option<ProjectionKeyFrames>)
      requires Valid()
      modifies this
      ensures Valid()
      ensures Agrees(DecProjectionKeyFrames(old(Remaining())), r, Remaining())
    {
      var formatKFs :- ReadArray(FormatKinds, FormatOf);
      var lensKFs :- ReadArray(LensKinds, LensOf);
      var stitchKFs :- ReadArray(StitchKinds, StitchOf);
      var alignmentKFs :- ReadArray(AlignmentKinds, AlignmentOf);
      var orientationKFs :- ReadArray(OrientationKinds, OrientationOf);
      var originKFs :- ReadArray(OriginKinds, OriginOf);
      var motionKFs :- ReadArray(MotionKinds, MotionOf);
      var autoFocusKFs :- ReadArray(AutoFocusKinds, AutoFocusOf);
      var syncKFs :- ReadArray(SyncKinds, SyncOf);
      var transitionKFs :- ReadArray(TransitionKinds, TransitionOf);
      var imageKFs :- ReadArray(ImageKinds, ImageOf);
      var audioKFs :- ReadArray(AudioKinds, AudioOf);
      var environmentKFs :- ReadArray(EnvironmentKinds, EnvironmentOf);
      return Some(ProjectionKeyFrames(
        formatKFs, lensKFs, stitchKFs, alignmentKFs, orientationKFs, originKFs, motionKFs,
        autoFocusKFs, syncKFs, transitionKFs, imageKFs, audioKFs, environmentKFs));
    }

    /** parse after the version word: the metadata properties, the tags, the tracks. */
    method ReadDocument(version: int) returns (r: Option<ProjectFile>)
      requires Valid()
      modifies this
      ensures Valid()
      ensures Agrees(DecDocument(version, old(Remaining())), r, Remaining())
    {
      var meta :- ReadFields(MetadataKinds);
      var tags :- ReadArray(TagKinds, TagOf);
      var tracks :- ReadProjectionKeyFrames();
      return Some(DocumentOf(version, meta, tags, tracks));
    }
  }

  /**
   * parse: the content-length word is read and ignored, a version other
   * than 7 is refused before any other field is read, and a read past the
   * end fails the whole parse.
   */
  method Parse(file: seq<byte>) returns (r: Result<ProjectFile, DecodeError>)
    ensures r == Decode(file)
  {
    var sb := new Reader.FromBuffer(file);
    var length := sb.ReadUInt32LE();
    if length.None? {
      return Err(Underrun);
    }
    var version := sb.ReadUInt32LE();
    if version.None? {
      return Err(Underrun);
    }
    if version.value != SupportedVersion {
      return Err(UnsupportedVersion(version.value));
    }
    var data := sb.ReadDocument(version.value);
    if data.None? {
      return Err(Underrun);
    }
    return Ok(data.value);
  }

  /**
   * hsp2json without the file system: the 48 header bytes are skipped
   * unread, the rest is inflated and parsed.
   */
  method Hsp2Json(file: seq<byte>, inflate: seq<byte> -> Option<seq<byte>>)
    returns (r: Result<ProjectFile, Container.FileError>)
    ensures r == Container.DecFile(file, inflate)
  {
    var compressed := if |file| < Container.HeaderSize then [] else file[Container.HeaderSize..];
    var decompressed := inflate(compressed);
    if decompressed.None? {
      return Err(Container.InflateFailed);
    }
    var output := Parse(decompressed.value);
    match output
    case Err(e) => return Err(Container.ParseFailed(e));
    case Ok(data) => return Ok(data);
  }
}
