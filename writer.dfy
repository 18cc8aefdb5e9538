/**
 * The writing half of SmartBuffer as json2hsp.js drives it: a growable byte
 * buffer with a write cursor. Every write puts its bytes at the cursor,
 * replacing bytes already there and growing the buffer when it runs past the
 * end, and moves the cursor past them. SmartBuffer's own writes and the field
 * writers json2hsp.js adds to it state their new state through `Overwrite`;
 * the record writers state it for the case writeData always calls them in,
 * with the cursor at the end of the buffer, where a write appends.
 */
module Writer {
  import opened Wrappers
  import opened Bytes
  import opened Primitives
  import opened Fields
  import opened Project
  import opened Schema
  import opened Container
  import Enums

  /** The buffer `d` after `b` is written at offset `at`; OverwriteKeeps says which bytes change. */
  function Overwrite(d: seq<byte>, at: nat, b: seq<byte>): (r: seq<byte>)
    requires at <= |d|
    ensures |r| == if at + |b| <= |d| then |d| else at + |b|
  {
    d[..at] + b + (if at + |b| < |d| then d[at + |b|..] else [])
  }

  /** The bytes before `at` and after the written ones stay, the written ones are `b`. */
  lemma OverwriteKeeps(d: seq<byte>, at: nat, b: seq<byte>)
    requires at <= |d|
    ensures Overwrite(d, at, b)[..at] == d[..at] && Overwrite(d, at, b)[at..at + |b|] == b
    ensures forall i :: at + |b| <= i < |d| ==> Overwrite(d, at, b)[i] == d[i]
  {
  }

  /** A write at the end of the buffer appends. */
  lemma OverwriteAtEnd(d: seq<byte>, b: seq<byte>)
    ensures Overwrite(d, |d|, b) == d + b
  {
    assert d[..|d|] == d;
  }

  /** Two writes in a row, the second where the first stopped, are one write of both. */
  lemma OverwriteTwice(d: seq<byte>, at: nat, a: seq<byte>, b: seq<byte>)
    requires at <= |d|
    ensures Overwrite(Overwrite(d, at, a), at + |a|, b) == Overwrite(d, at, a + b)
  {
    var m := Overwrite(d, at, a);
    var x, y := Overwrite(m, at + |a|, b), Overwrite(d, at, a + b);
    OverwriteKeeps(d, at, a);
    OverwriteKeeps(m, at + |a|, b);
    OverwriteKeeps(d, at, a + b);
    assert |x| == |y|;
    forall i | 0 <= i < |x| ensures x[i] == y[i] {
      if i < at {
        assert x[i] == x[..at][i] && y[i] == y[..at][i];
      } else if i < at + |a| {
        assert x[i] == m[i] == a[i - at];
        assert y[i] == y[at..at + |a + b|][i - at];
      } else if i < at + |a| + |b| {
        assert x[i] == x[at + |a|..at + |a| + |b|][i - at - |a|];
        assert y[i] == y[at..at + |a + b|][i - at];
      }
    }
  }

  /** writeFString's three writes, the length word, the UTF-8 bytes and the terminator, are one write of the FString. */
  lemma FStringWrites(d: seq<byte>, at: nat, s: Text)
    requires at <= |d| && TextFits(s) && |s| > 0
    ensures Overwrite(Overwrite(Overwrite(d, at, EncI32(|s| + 1)), at + 4, Utf8(s)), at + 4 + |Utf8(s)|, EncU8(0))
      == Overwrite(d, at, EncFString(s))
  {
    OverwriteTwice(d, at, EncI32(|s| + 1), Utf8(s));
    OverwriteTwice(d, at, EncI32(|s| + 1) + Utf8(s), EncU8(0));
  }

  /** One more field written after `h` and the fields before it: its bytes follow theirs. */
  lemma SnocStep(h: seq<byte>, fs: seq<Field>, f: Field, before: seq<byte>, bytes: seq<byte>)
    requires AllWritable(fs) && Writable(f) && h + EncFields(fs) == before && EncField(f) == bytes
    ensures AllWritable(fs + [f]) && h + EncFields(fs + [f]) == before + bytes
  {
    EncFieldsSnoc(fs, f);
    AppendAssoc(h, EncFields(fs), bytes);
  }

  /** The bytes of an array's first i records, then the i-th record, are those of its first i + 1 records. */
  lemma ElemStep(h: seq<byte>, rs: seq<seq<Field>>, i: nat)
    requires AllRecordsWritable(rs) && i < |rs|
    ensures h + EncElems(rs[..i]) + EncFields(rs[i]) == h + EncElems(rs[..i + 1])
  {
    assert rs[..i + 1][..i] == rs[..i];
    AppendAssoc(h, EncElems(rs[..i]), EncFields(rs[i]));
  }

  /** writeHSTag's five writes, one after the other, are the tag's field list encoded. */
  lemma TagBytes(h: seq<byte>, tag: Tag)
    requires TagWritable(tag)
    ensures AllWritable(TagFields(tag))
    ensures h + EncFields(TagFields(tag))
      == h + EncFString(tag.name) + EncFloat(tag.rating) + EncTimespan(tag.start) + EncTimespan(tag.end)
      + EncI32(tag.track)
  {
    var r, b := [TextField(tag.name)], h + EncFString(tag.name);
    EncFieldsOne(TextField(tag.name));
    SnocStep(h, r, FloatField(tag.rating), b, EncFloat(tag.rating));
    r, b := r + [FloatField(tag.rating)], b + EncFloat(tag.rating);
    SnocStep(h, r, TimespanField(tag.start), b, EncTimespan(tag.start));
    r, b := r + [TimespanField(tag.start)], b + EncTimespan(tag.start);
    SnocStep(h, r, TimespanField(tag.end), b, EncTimespan(tag.end));
    r, b := r + [TimespanField(tag.end)], b + EncTimespan(tag.end);
    SnocStep(h, r, Int32Field(tag.track), b, EncI32(tag.track));
    r, b := r + [Int32Field(tag.track)], b + EncI32(tag.track);
  }

  /** The first 6 fields of Format. */
  lemma FormatBytesUpto6(h: seq<byte>, kf: FormatKeyFrame)
    ensures AllWritable([TimespanField(kf.time)] + [EnumField(Enums.ProjectionMode, kf.projectionMode)]
      + [EnumField(Enums.StereoMode, kf.stereoMode)] + [BoolField(kf.eyeSwapEnabled)]
      + [BoolField(kf.forceMonoEnabled)] + [BoolField(kf.flipFrontBack)])
    ensures h + EncFields([TimespanField(kf.time)] + [EnumField(Enums.ProjectionMode, kf.projectionMode)]
      + [EnumField(Enums.StereoMode, kf.stereoMode)] + [BoolField(kf.eyeSwapEnabled)]
      + [BoolField(kf.forceMonoEnabled)] + [BoolField(kf.flipFrontBack)])
      == h + EncTimespan(kf.time) + EncU8(EnumCode(Enums.ProjectionMode, kf.projectionMode))
      + EncU8(EnumCode(Enums.StereoMode, kf.stereoMode)) + EncBool(kf.eyeSwapEnabled)
      + EncBool(kf.forceMonoEnabled) + EncBool(kf.flipFrontBack)
  {
    var r, b := [TimespanField(kf.time)], h + EncTimespan(kf.time);
    EncFieldsOne(TimespanField(kf.time));
    SnocStep(h, r, EnumField(Enums.ProjectionMode, kf.projectionMode), b, EncU8(EnumCode(Enums.ProjectionMode, kf.projectionMode)));
    r, b := r + [EnumField(Enums.ProjectionMode, kf.projectionMode)], b + EncU8(EnumCode(Enums.ProjectionMode, kf.projectionMode));
    SnocStep(h, r, EnumField(Enums.StereoMode, kf.stereoMode), b, EncU8(EnumCode(Enums.StereoMode, kf.stereoMode)));
    r, b := r + [EnumField(Enums.StereoMode, kf.stereoMode)], b + EncU8(EnumCode(Enums.StereoMode, kf.stereoMode));
    SnocStep(h, r, BoolField(kf.eyeSwapEnabled), b, EncBool(kf.eyeSwapEnabled));
    r, b := r + [BoolField(kf.eyeSwapEnabled)], b + EncBool(kf.eyeSwapEnabled);
    SnocStep(h, r, BoolField(kf.forceMonoEnabled), b, EncBool(kf.forceMonoEnabled));
    r, b := r + [BoolField(kf.forceMonoEnabled)], b + EncBool(kf.forceMonoEnabled);
    SnocStep(h, r, BoolField(kf.flipFrontBack), b, EncBool(kf.flipFrontBack));
    r, b := r + [BoolField(kf.flipFrontBack)], b + EncBool(kf.flipFrontBack);
  }

  /** The first 12 fields of Format. */
  lemma FormatBytesUpto12(h: seq<byte>, kf: FormatKeyFrame)
    ensures AllWritable([TimespanField(kf.time)] + [EnumField(Enums.ProjectionMode, kf.projectionMode)]
      + [EnumField(Enums.StereoMode, kf.stereoMode)] + [BoolField(kf.eyeSwapEnabled)]
      + [BoolField(kf.forceMonoEnabled)] + [BoolField(kf.flipFrontBack)]
      + [BoolField(kf.flipLeftRight)] + [BoolField(kf.flipUpDown)]
      + [EnumField(Enums.AspectRatioType, kf.aspectRatioType)] + [FloatField(kf.aspectRatio)]
      + [Vector2DField(kf.zoom)] + [Vector2DField(kf.pan)])
    ensures h + EncFields([TimespanField(kf.time)] + [EnumField(Enums.ProjectionMode, kf.projectionMode)]
      + [EnumField(Enums.StereoMode, kf.stereoMode)] + [BoolField(kf.eyeSwapEnabled)]
      + [BoolField(kf.forceMonoEnabled)] + [BoolField(kf.flipFrontBack)]
      + [BoolField(kf.flipLeftRight)] + [BoolField(kf.flipUpDown)]
      + [EnumField(Enums.AspectRatioType, kf.aspectRatioType)] + [FloatField(kf.aspectRatio)]
      + [Vector2DField(kf.zoom)] + [Vector2DField(kf.pan)])
      == h + EncTimespan(kf.time) + EncU8(EnumCode(Enums.ProjectionMode, kf.projectionMode))
      + EncU8(EnumCode(Enums.StereoMode, kf.stereoMode)) + EncBool(kf.eyeSwapEnabled)
      + EncBool(kf.forceMonoEnabled) + EncBool(kf.flipFrontBack) + EncBool(kf.flipLeftRight)
      + EncBool(kf.flipUpDown) + EncU8(EnumCode(Enums.AspectRatioType, kf.aspectRatioType))
      + EncFloat(kf.aspectRatio) + EncVector2D(kf.zoom) + EncVector2D(kf.pan)
  {
    FormatBytesUpto6(h, kf);
    var r := [TimespanField(kf.time)] + [EnumField(Enums.ProjectionMode, kf.projectionMode)]
      + [EnumField(Enums.StereoMode, kf.stereoMode)] + [BoolField(kf.eyeSwapEnabled)]
      + [BoolField(kf.forceMonoEnabled)] + [BoolField(kf.flipFrontBack)];
    var b := h + EncTimespan(kf.time) + EncU8(EnumCode(Enums.ProjectionMode, kf.projectionMode))
      + EncU8(EnumCode(Enums.StereoMode, kf.stereoMode)) + EncBool(kf.eyeSwapEnabled)
      + EncBool(kf.forceMonoEnabled) + EncBool(kf.flipFrontBack);
    SnocStep(h, r, BoolField(kf.flipLeftRight), b, EncBool(kf.flipLeftRight));
    r, b := r + [BoolField(kf.flipLeftRight)], b + EncBool(kf.flipLeftRight);
    SnocStep(h, r, BoolField(kf.flipUpDown), b, EncBool(kf.flipUpDown));
    r, b := r + [BoolField(kf.flipUpDown)], b + EncBool(kf.flipUpDown);
    SnocStep(h, r, EnumField(Enums.AspectRatioType, kf.aspectRatioType), b, EncU8(EnumCode(Enums.AspectRatioType, kf.aspectRatioType)));
    r, b := r + [EnumField(Enums.AspectRatioType, kf.aspectRatioType)], b + EncU8(EnumCode(Enums.AspectRatioType, kf.aspectRatioType));
    SnocStep(h, r, FloatField(kf.aspectRatio), b, EncFloat(kf.aspectRatio));
    r, b := r + [FloatField(kf.aspectRatio)], b + EncFloat(kf.aspectRatio);
    SnocStep(h, r, Vector2DField(kf.zoom), b, EncVector2D(kf.zoom));
    r, b := r + [Vector2DField(kf.zoom)], b + EncVector2D(kf.zoom);
    SnocStep(h, r, Vector2DField(kf.pan), b, EncVector2D(kf.pan));
    r, b := r + [Vector2DField(kf.pan)], b + EncVector2D(kf.pan);
  }

  /** writeFormatKeyFrame's writes, one after the other, are the keyframe's field list encoded. */
  lemma FormatBytes(h: seq<byte>, kf: FormatKeyFrame)
    ensures AllWritable(FormatFields(kf))
    ensures h + EncFields(FormatFields(kf))
      == h + EncTimespan(kf.time) + EncU8(EnumCode(Enums.ProjectionMode, kf.projectionMode))
      + EncU8(EnumCode(Enums.StereoMode, kf.stereoMode)) + EncBool(kf.eyeSwapEnabled)
      + EncBool(kf.forceMonoEnabled) + EncBool(kf.flipFrontBack) + EncBool(kf.flipLeftRight)
      + EncBool(kf.flipUpDown) + EncU8(EnumCode(Enums.AspectRatioType, kf.aspectRatioType))
      + EncFloat(kf.aspectRatio) + EncVector2D(kf.zoom) + EncVector2D(kf.pan)
      + EncU8(EnumCode(Enums.OrientationType, kf.orientationType))
  {
    FormatBytesUpto12(h, kf);
    var r := [TimespanField(kf.time)] + [EnumField(Enums.ProjectionMode, kf.projectionMode)]
      + [EnumField(Enums.StereoMode, kf.stereoMode)] + [BoolField(kf.eyeSwapEnabled)]
      + [BoolField(kf.forceMonoEnabled)] + [BoolField(kf.flipFrontBack)]
      + [BoolField(kf.flipLeftRight)] + [BoolField(kf.flipUpDown)]
      + [EnumField(Enums.AspectRatioType, kf.aspectRatioType)] + [FloatField(kf.aspectRatio)]
      + [Vector2DField(kf.zoom)] + [Vector2DField(kf.pan)];
    var b := h + EncTimespan(kf.time) + EncU8(EnumCode(Enums.ProjectionMode, kf.projectionMode))
      + EncU8(EnumCode(Enums.StereoMode, kf.stereoMode)) + EncBool(kf.eyeSwapEnabled)
      + EncBool(kf.forceMonoEnabled) + EncBool(kf.flipFrontBack) + EncBool(kf.flipLeftRight)
      + EncBool(kf.flipUpDown) + EncU8(EnumCode(Enums.AspectRatioType, kf.aspectRatioType))
      + EncFloat(kf.aspectRatio) + EncVector2D(kf.zoom) + EncVector2D(kf.pan);
    SnocStep(h, r, EnumField(Enums.OrientationType, kf.orientationType), b, EncU8(EnumCode(Enums.OrientationType, kf.orientationType)));
    r, b := r + [EnumField(Enums.OrientationType, kf.orientationType)], b + EncU8(EnumCode(Enums.OrientationType, kf.orientationType));
  }

  /** The first 6 fields of Lens. */
  lemma LensBytesUpto6(h: seq<byte>, kf: LensKeyFrame)
    requires LensWritable(kf)
    ensures AllWritable([TimespanField(kf.time)] + [TextField(kf.trueLensName)] + [TextField(kf.exportLensName)]
      + [LinearColorField(kf.trueLensCalibration)] + [LinearColorField(kf.exportLensCalibration)]
      + [FloatField(kf.trueFOV)])
    ensures h + EncFields([TimespanField(kf.time)] + [TextField(kf.trueLensName)] + [TextField(kf.exportLensName)]
      + [LinearColorField(kf.trueLensCalibration)] + [LinearColorField(kf.exportLensCalibration)]
      + [FloatField(kf.trueFOV)])
      == h + EncTimespan(kf.time) + EncFString(kf.trueLensName) + EncFString(kf.exportLensName)
      + EncLinearColor(kf.trueLensCalibration) + EncLinearColor(kf.exportLensCalibration)
      + EncFloat(kf.trueFOV)
  {
    var r, b := [TimespanField(kf.time)], h + EncTimespan(kf.time);
    EncFieldsOne(TimespanField(kf.time));
    SnocStep(h, r, TextField(kf.trueLensName), b, EncFString(kf.trueLensName));
    r, b := r + [TextField(kf.trueLensName)], b + EncFString(kf.trueLensName);
    SnocStep(h, r, TextField(kf.exportLensName), b, EncFString(kf.exportLensName));
    r, b := r + [TextField(kf.exportLensName)], b + EncFString(kf.exportLensName);
    SnocStep(h, r, LinearColorField(kf.trueLensCalibration), b, EncLinearColor(kf.trueLensCalibration));
    r, b := r + [LinearColorField(kf.trueLensCalibration)], b + EncLinearColor(kf.trueLensCalibration);
    SnocStep(h, r, LinearColorField(kf.exportLensCalibration), b, EncLinearColor(kf.exportLensCalibration));
    r, b := r + [LinearColorField(kf.exportLensCalibration)], b + EncLinearColor(kf.exportLensCalibration);
    SnocStep(h, r, FloatField(kf.trueFOV), b, EncFloat(kf.trueFOV));
    r, b := r + [FloatField(kf.trueFOV)], b + EncFloat(kf.trueFOV);
  }

  /** writeLensKeyFrame's writes, one after the other, are the keyframe's field list encoded. */
  lemma LensBytes(h: seq<byte>, kf: LensKeyFrame)
    requires LensWritable(kf)
    ensures AllWritable(LensFields(kf))
    ensures h + EncFields(LensFields(kf))
      == h + EncTimespan(kf.time) + EncFString(kf.trueLensName) + EncFString(kf.exportLensName)
      + EncLinearColor(kf.trueLensCalibration) + EncLinearColor(kf.exportLensCalibration)
      + EncFloat(kf.trueFOV) + EncFloat(kf.exportFOV)
  {
    LensBytesUpto6(h, kf);
    var r := [TimespanField(kf.time)] + [TextField(kf.trueLensName)] + [TextField(kf.exportLensName)]
      + [LinearColorField(kf.trueLensCalibration)] + [LinearColorField(kf.exportLensCalibration)]
      + [FloatField(kf.trueFOV)];
    var b := h + EncTimespan(kf.time) + EncFString(kf.trueLensName) + EncFString(kf.exportLensName)
      + EncLinearColor(kf.trueLensCalibration) + EncLinearColor(kf.exportLensCalibration)
      + EncFloat(kf.trueFOV);
    SnocStep(h, r, FloatField(kf.exportFOV), b, EncFloat(kf.exportFOV));
    r, b := r + [FloatField(kf.exportFOV)], b + EncFloat(kf.exportFOV);
  }

  /** writeStitchKeyFrame's writes, one after the other, are the keyframe's field list encoded. */
  lemma StitchBytes(h: seq<byte>, kf: StitchKeyFrame)
    ensures AllWritable(StitchFields(kf))
    ensures h + EncFields(StitchFields(kf))
      == h + EncTimespan(kf.time) + EncVector4(kf.shift) + EncVector4(kf.scale) + EncVector4(kf.shear)
      + EncVector4(kf.flare) + EncVector4(kf.slant)
  {
    var r, b := [TimespanField(kf.time)], h + EncTimespan(kf.time);
    EncFieldsOne(TimespanField(kf.time));
    SnocStep(h, r, Vector4Field(kf.shift), b, EncVector4(kf.shift));
    r, b := r + [Vector4Field(kf.shift)], b + EncVector4(kf.shift);
    SnocStep(h, r, Vector4Field(kf.scale), b, EncVector4(kf.scale));
    r, b := r + [Vector4Field(kf.scale)], b + EncVector4(kf.scale);
    SnocStep(h, r, Vector4Field(kf.shear), b, EncVector4(kf.shear));
    r, b := r + [Vector4Field(kf.shear)], b + EncVector4(kf.shear);
    SnocStep(h, r, Vector4Field(kf.flare), b, EncVector4(kf.flare));
    r, b := r + [Vector4Field(kf.flare)], b + EncVector4(kf.flare);
    SnocStep(h, r, Vector4Field(kf.slant), b, EncVector4(kf.slant));
    r, b := r + [Vector4Field(kf.slant)], b + EncVector4(kf.slant);
  }

  /** writeAlignmentKeyFrame's writes, one after the other, are the keyframe's field list encoded. */
  lemma AlignmentBytes(h: seq<byte>, kf: AlignmentKeyFrame)
    ensures AllWritable(AlignmentFields(kf))
    ensures h + EncFields(AlignmentFields(kf))
      == h + EncTimespan(kf.time) + EncVector(kf.position) + EncRotator(kf.rotation)
  {
    var r, b := [TimespanField(kf.time)], h + EncTimespan(kf.time);
    EncFieldsOne(TimespanField(kf.time));
    SnocStep(h, r, VectorField(kf.position), b, EncVector(kf.position));
    r, b := r + [VectorField(kf.position)], b + EncVector(kf.position);
    SnocStep(h, r, RotatorField(kf.rotation), b, EncRotator(kf.rotation));
    r, b := r + [RotatorField(kf.rotation)], b + EncRotator(kf.rotation);
  }

  /** writeOrientationKeyFrame's writes, one after the other, are the keyframe's field list encoded. */
  lemma OrientationBytes(h: seq<byte>, kf: OrientationKeyFrame)
    ensures AllWritable(OrientationFields(kf))
    ensures h + EncFields(OrientationFields(kf))
      == h + EncTimespan(kf.time) + EncRotator(kf.orientation)
  {
    var r, b := [TimespanField(kf.time)], h + EncTimespan(kf.time);
    EncFieldsOne(TimespanField(kf.time));
    SnocStep(h, r, RotatorField(kf.orientation), b, EncRotator(kf.orientation));
    r, b := r + [RotatorField(kf.orientation)], b + EncRotator(kf.orientation);
  }

  /** writeOriginKeyFrame's writes, one after the other, are the keyframe's field list encoded. */
  lemma OriginBytes(h: seq<byte>, kf: OriginKeyFrame)
    ensures AllWritable(OriginFields(kf))
    ensures h + EncFields(OriginFields(kf))
      == h + EncTimespan(kf.time) + EncVector(kf.origin)
  {
    var r, b := [TimespanField(kf.time)], h + EncTimespan(kf.time);
    EncFieldsOne(TimespanField(kf.time));
    SnocStep(h, r, VectorField(kf.origin), b, EncVector(kf.origin));
    r, b := r + [VectorField(kf.origin)], b + EncVector(kf.origin);
  }

  /** writeMotionKeyFrame's writes, one after the other, are the keyframe's field list encoded. */
  lemma MotionBytes(h: seq<byte>, kf: MotionKeyFrame)
    ensures AllWritable(MotionFields(kf))
    ensures h + EncFields(MotionFields(kf))
      == h + EncTimespan(kf.time) + EncFloat(kf.motionDistance)
  {
    var r, b := [TimespanField(kf.time)], h + EncTimespan(kf.time);
    EncFieldsOne(TimespanField(kf.time));
    SnocStep(h, r, FloatField(kf.motionDistance), b, EncFloat(kf.motionDistance));
    r, b := r + [FloatField(kf.motionDistance)], b + EncFloat(kf.motionDistance);
  }

  /** writeAutoFocusKeyFrame's writes, one after the other, are the keyframe's field list encoded. */
  lemma AutoFocusBytes(h: seq<byte>, kf: AutoFocusKeyFrame)
    ensures AllWritable(AutoFocusFields(kf))
    ensures h + EncFields(AutoFocusFields(kf))
      == h + EncTimespan(kf.time) + EncRotator(kf.rotation) + EncFloat(kf.focalDistanceOverride)
      + EncFloat(kf.minFocusDistance) + EncFloat(kf.maxFocusDistance)
      + EncFloat(kf.focusTransitionSpeed)
  {
    var r, b := [TimespanField(kf.time)], h + EncTimespan(kf.time);
    EncFieldsOne(TimespanField(kf.time));
    SnocStep(h, r, RotatorField(kf.rotation), b, EncRotator(kf.rotation));
    r, b := r + [RotatorField(kf.rotation)], b + EncRotator(kf.rotation);
    SnocStep(h, r, FloatField(kf.focalDistanceOverride), b, EncFloat(kf.focalDistanceOverride));
    r, b := r + [FloatField(kf.focalDistanceOverride)], b + EncFloat(kf.focalDistanceOverride);
    SnocStep(h, r, FloatField(kf.minFocusDistance), b, EncFloat(kf.minFocusDistance));
    r, b := r + [FloatField(kf.minFocusDistance)], b + EncFloat(kf.minFocusDistance);
    SnocStep(h, r, FloatField(kf.maxFocusDistance), b, EncFloat(kf.maxFocusDistance));
    r, b := r + [FloatField(kf.maxFocusDistance)], b + EncFloat(kf.maxFocusDistance);
    SnocStep(h, r, FloatField(kf.focusTransitionSpeed), b, EncFloat(kf.focusTransitionSpeed));
    r, b := r + [FloatField(kf.focusTransitionSpeed)], b + EncFloat(kf.focusTransitionSpeed);
  }

  /** writeSyncKeyFrame's writes, one after the other, are the keyframe's field list encoded. */
  lemma SyncBytes(h: seq<byte>, kf: SyncKeyFrame)
    ensures AllWritable(SyncFields(kf))
    ensures h + EncFields(SyncFields(kf))
      == h + EncTimespan(kf.time) + EncTimespan(kf.startingTicksOffset)
      + EncTimespan(kf.ticksPerHoursOffset)
  {
    var r, b := [TimespanField(kf.time)], h + EncTimespan(kf.time);
    EncFieldsOne(TimespanField(kf.time));
    SnocStep(h, r, TimespanField(kf.startingTicksOffset), b, EncTimespan(kf.startingTicksOffset));
    r, b := r + [TimespanField(kf.startingTicksOffset)], b + EncTimespan(kf.startingTicksOffset);
    SnocStep(h, r, TimespanField(kf.ticksPerHoursOffset), b, EncTimespan(kf.ticksPerHoursOffset));
    r, b := r + [TimespanField(kf.ticksPerHoursOffset)], b + EncTimespan(kf.ticksPerHoursOffset);
  }

  /** writeTransitionKeyFrame's writes, one after the other, are the keyframe's field list encoded. */
  lemma TransitionBytes(h: seq<byte>, kf: TransitionKeyFrame)
    ensures AllWritable(TransitionFields(kf))
    ensures h + EncFields(TransitionFields(kf))
      == h + EncTimespan(kf.time) + EncU8(EnumCode(Enums.KeyFrameTransitionType, kf.transitionType))
      + EncTimespan(kf.duration)
  {
    var r, b := [TimespanField(kf.time)], h + EncTimespan(kf.time);
    EncFieldsOne(TimespanField(kf.time));
    SnocStep(h, r, EnumField(Enums.KeyFrameTransitionType, kf.transitionType), b, EncU8(EnumCode(Enums.KeyFrameTransitionType, kf.transitionType)));
    r, b := r + [EnumField(Enums.KeyFrameTransitionType, kf.transitionType)], b + EncU8(EnumCode(Enums.KeyFrameTransitionType, kf.transitionType));
    SnocStep(h, r, TimespanField(kf.duration), b, EncTimespan(kf.duration));
    r, b := r + [TimespanField(kf.duration)], b + EncTimespan(kf.duration);
  }

  /** The first 6 fields of Image. */
  lemma ImageBytesUpto6(h: seq<byte>, kf: ImageKeyFrame)
    ensures AllWritable([TimespanField(kf.time)] + [FloatField(kf.sharpness)] + [FloatField(kf.colorExposureBias)]
      + [FloatField(kf.colorWhiteTemperature)] + [FloatField(kf.colorWhiteTint)]
      + [Vector4Field(kf.colorSaturation)])
    ensures h + EncFields([TimespanField(kf.time)] + [FloatField(kf.sharpness)] + [FloatField(kf.colorExposureBias)]
      + [FloatField(kf.colorWhiteTemperature)] + [FloatField(kf.colorWhiteTint)]
      + [Vector4Field(kf.colorSaturation)])
      == h + EncTimespan(kf.time) + EncFloat(kf.sharpness) + EncFloat(kf.colorExposureBias)
      + EncFloat(kf.colorWhiteTemperature) + EncFloat(kf.colorWhiteTint)
      + EncVector4(kf.colorSaturation)
  {
    var r, b := [TimespanField(kf.time)], h + EncTimespan(kf.time);
    EncFieldsOne(TimespanField(kf.time));
    SnocStep(h, r, FloatField(kf.sharpness), b, EncFloat(kf.sharpness));
    r, b := r + [FloatField(kf.sharpness)], b + EncFloat(kf.sharpness);
    SnocStep(h, r, FloatField(kf.colorExposureBias), b, EncFloat(kf.colorExposureBias));
    r, b := r + [FloatField(kf.colorExposureBias)], b + EncFloat(kf.colorExposureBias);
    SnocStep(h, r, FloatField(kf.colorWhiteTemperature), b, EncFloat(kf.colorWhiteTemperature));
    r, b := r + [FloatField(kf.colorWhiteTemperature)], b + EncFloat(kf.colorWhiteTemperature);
    SnocStep(h, r, FloatField(kf.colorWhiteTint), b, EncFloat(kf.colorWhiteTint));
    r, b := r + [FloatField(kf.colorWhiteTint)], b + EncFloat(kf.colorWhiteTint);
    SnocStep(h, r, Vector4Field(kf.colorSaturation), b, EncVector4(kf.colorSaturation));
    r, b := r + [Vector4Field(kf.colorSaturation)], b + EncVector4(kf.colorSaturation);
  }

  /** The first 12 fields of Image. */
  lemma ImageBytesUpto12(h: seq<byte>, kf: ImageKeyFrame)
    ensures AllWritable([TimespanField(kf.time)] + [FloatField(kf.sharpness)] + [FloatField(kf.colorExposureBias)]
      + [FloatField(kf.colorWhiteTemperature)] + [FloatField(kf.colorWhiteTint)]
      + [Vector4Field(kf.colorSaturation)] + [Vector4Field(kf.colorContrast)]
      + [Vector4Field(kf.colorGamma)] + [Vector4Field(kf.colorGain)]
      + [Vector4Field(kf.colorOffset)] + [FloatField(kf.shadows)] + [FloatField(kf.midtones)])
    ensures h + EncFields([TimespanField(kf.time)] + [FloatField(kf.sharpness)] + [FloatField(kf.colorExposureBias)]
      + [FloatField(kf.colorWhiteTemperature)] + [FloatField(kf.colorWhiteTint)]
      + [Vector4Field(kf.colorSaturation)] + [Vector4Field(kf.colorContrast)]
      + [Vector4Field(kf.colorGamma)] + [Vector4Field(kf.colorGain)]
      + [Vector4Field(kf.colorOffset)] + [FloatField(kf.shadows)] + [FloatField(kf.midtones)])
      == h + EncTimespan(kf.time) + EncFloat(kf.sharpness) + EncFloat(kf.colorExposureBias)
      + EncFloat(kf.colorWhiteTemperature) + EncFloat(kf.colorWhiteTint)
      + EncVector4(kf.colorSaturation) + EncVector4(kf.colorContrast) + EncVector4(kf.colorGamma)
      + EncVector4(kf.colorGain) + EncVector4(kf.colorOffset) + EncFloat(kf.shadows)
      + EncFloat(kf.midtones)
  {
    ImageBytesUpto6(h, kf);
    var r := [TimespanField(kf.time)] + [FloatField(kf.sharpness)] + [FloatField(kf.colorExposureBias)]
      + [FloatField(kf.colorWhiteTemperature)] + [FloatField(kf.colorWhiteTint)]
      + [Vector4Field(kf.colorSaturation)];
    var b := h + EncTimespan(kf.time) + EncFloat(kf.sharpness) + EncFloat(kf.colorExposureBias)
      + EncFloat(kf.colorWhiteTemperature) + EncFloat(kf.colorWhiteTint)
      + EncVector4(kf.colorSaturation);
    SnocStep(h, r, Vector4Field(kf.colorContrast), b, EncVector4(kf.colorContrast));
    r, b := r + [Vector4Field(kf.colorContrast)], b + EncVector4(kf.colorContrast);
    SnocStep(h, r, Vector4Field(kf.colorGamma), b, EncVector4(kf.colorGamma));
    r, b := r + [Vector4Field(kf.colorGamma)], b + EncVector4(kf.colorGamma);
    SnocStep(h, r, Vector4Field(kf.colorGain), b, EncVector4(kf.colorGain));
    r, b := r + [Vector4Field(kf.colorGain)], b + EncVector4(kf.colorGain);
    SnocStep(h, r, Vector4Field(kf.colorOffset), b, EncVector4(kf.colorOffset));
    r, b := r + [Vector4Field(kf.colorOffset)], b + EncVector4(kf.colorOffset);
    SnocStep(h, r, FloatField(kf.shadows), b, EncFloat(kf.shadows));
    r, b := r + [FloatField(kf.shadows)], b + EncFloat(kf.shadows);
    SnocStep(h, r, FloatField(kf.midtones), b, EncFloat(kf.midtones));
    r, b := r + [FloatField(kf.midtones)], b + EncFloat(kf.midtones);
  }

  /** writeImageKeyFrame's writes, one after the other, are the keyframe's field list encoded. */
  lemma ImageBytes(h: seq<byte>, kf: ImageKeyFrame)
    ensures AllWritable(ImageFields(kf))
    ensures h + EncFields(ImageFields(kf))
      == h + EncTimespan(kf.time) + EncFloat(kf.sharpness) + EncFloat(kf.colorExposureBias)
      + EncFloat(kf.colorWhiteTemperature) + EncFloat(kf.colorWhiteTint)
      + EncVector4(kf.colorSaturation) + EncVector4(kf.colorContrast) + EncVector4(kf.colorGamma)
      + EncVector4(kf.colorGain) + EncVector4(kf.colorOffset) + EncFloat(kf.shadows)
      + EncFloat(kf.midtones) + EncFloat(kf.highlights)
  {
    ImageBytesUpto12(h, kf);
    var r := [TimespanField(kf.time)] + [FloatField(kf.sharpness)] + [FloatField(kf.colorExposureBias)]
      + [FloatField(kf.colorWhiteTemperature)] + [FloatField(kf.colorWhiteTint)]
      + [Vector4Field(kf.colorSaturation)] + [Vector4Field(kf.colorContrast)]
      + [Vector4Field(kf.colorGamma)] + [Vector4Field(kf.colorGain)]
      + [Vector4Field(kf.colorOffset)] + [FloatField(kf.shadows)] + [FloatField(kf.midtones)];
    var b := h + EncTimespan(kf.time) + EncFloat(kf.sharpness) + EncFloat(kf.colorExposureBias)
      + EncFloat(kf.colorWhiteTemperature) + EncFloat(kf.colorWhiteTint)
      + EncVector4(kf.colorSaturation) + EncVector4(kf.colorContrast) + EncVector4(kf.colorGamma)
      + EncVector4(kf.colorGain) + EncVector4(kf.colorOffset) + EncFloat(kf.shadows)
      + EncFloat(kf.midtones);
    SnocStep(h, r, FloatField(kf.highlights), b, EncFloat(kf.highlights));
    r, b := r + [FloatField(kf.highlights)], b + EncFloat(kf.highlights);
  }

  /** writeAudioKeyFrame's writes, one after the other, are the keyframe's field list encoded. */
  lemma AudioBytes(h: seq<byte>, kf: AudioKeyFrame)
    ensures AllWritable(AudioFields(kf))
    ensures h + EncFields(AudioFields(kf))
      == h + EncTimespan(kf.time) + EncFloat(kf.timeOffset) + EncFloat(kf.volumeMultiplier)
  {
    var r, b := [TimespanField(kf.time)], h + EncTimespan(kf.time);
    EncFieldsOne(TimespanField(kf.time));
    SnocStep(h, r, FloatField(kf.timeOffset), b, EncFloat(kf.timeOffset));
    r, b := r + [FloatField(kf.timeOffset)], b + EncFloat(kf.timeOffset);
    SnocStep(h, r, FloatField(kf.volumeMultiplier), b, EncFloat(kf.volumeMultiplier));
    r, b := r + [FloatField(kf.volumeMultiplier)], b + EncFloat(kf.volumeMultiplier);
  }

  /** The first 6 fields of Environment. */
  lemma EnvironmentBytesUpto6(h: seq<byte>, kf: EnvironmentKeyFrame)
    requires EnvironmentWritable(kf)
    ensures AllWritable([TimespanField(kf.time)] + [EnumField(Enums.BackgroundType, kf.backgroundType)]
      + [LinearColorField(kf.backgroundColor)] + [TextField(kf.backgroundName)]
      + [EnumField(Enums.MaskType, kf.maskType)] + [FloatField(kf.opacityScale)])
    ensures h + EncFields([TimespanField(kf.time)] + [EnumField(Enums.BackgroundType, kf.backgroundType)]
      + [LinearColorField(kf.backgroundColor)] + [TextField(kf.backgroundName)]
      + [EnumField(Enums.MaskType, kf.maskType)] + [FloatField(kf.opacityScale)])
      == h + EncTimespan(kf.time) + EncU8(EnumCode(Enums.BackgroundType, kf.backgroundType))
      + EncLinearColor(kf.backgroundColor) + EncFString(kf.backgroundName)
      + EncU8(EnumCode(Enums.MaskType, kf.maskType)) + EncFloat(kf.opacityScale)
  {
    var r, b := [TimespanField(kf.time)], h + EncTimespan(kf.time);
    EncFieldsOne(TimespanField(kf.time));
    SnocStep(h, r, EnumField(Enums.BackgroundType, kf.backgroundType), b, EncU8(EnumCode(Enums.BackgroundType, kf.backgroundType)));
    r, b := r + [EnumField(Enums.BackgroundType, kf.backgroundType)], b + EncU8(EnumCode(Enums.BackgroundType, kf.backgroundType));
    SnocStep(h, r, LinearColorField(kf.backgroundColor), b, EncLinearColor(kf.backgroundColor));
    r, b := r + [LinearColorField(kf.backgroundColor)], b + EncLinearColor(kf.backgroundColor);
    SnocStep(h, r, TextField(kf.backgroundName), b, EncFString(kf.backgroundName));
    r, b := r + [TextField(kf.backgroundName)], b + EncFString(kf.backgroundName);
    SnocStep(h, r, EnumField(Enums.MaskType, kf.maskType), b, EncU8(EnumCode(Enums.MaskType, kf.maskType)));
    r, b := r + [EnumField(Enums.MaskType, kf.maskType)], b + EncU8(EnumCode(Enums.MaskType, kf.maskType));
    SnocStep(h, r, FloatField(kf.opacityScale), b, EncFloat(kf.opacityScale));
    r, b := r + [FloatField(kf.opacityScale)], b + EncFloat(kf.opacityScale);
  }

  /** The first 12 fields of Environment. */
  lemma EnvironmentBytesUpto12(h: seq<byte>, kf: EnvironmentKeyFrame)
    requires EnvironmentWritable(kf)
    ensures AllWritable([TimespanField(kf.time)] + [EnumField(Enums.BackgroundType, kf.backgroundType)]
      + [LinearColorField(kf.backgroundColor)] + [TextField(kf.backgroundName)]
      + [EnumField(Enums.MaskType, kf.maskType)] + [FloatField(kf.opacityScale)]
      + [LinearColorField(kf.chromaKey1Color)] + [LinearColorField(kf.chromaKey1Settings)]
      + [LinearColorField(kf.chromaKey2Color)] + [LinearColorField(kf.chromaKey2Settings)]
      + [LinearColorField(kf.chromaKey3Color)] + [LinearColorField(kf.chromaKey3Settings)])
    ensures h + EncFields([TimespanField(kf.time)] + [EnumField(Enums.BackgroundType, kf.backgroundType)]
      + [LinearColorField(kf.backgroundColor)] + [TextField(kf.backgroundName)]
      + [EnumField(Enums.MaskType, kf.maskType)] + [FloatField(kf.opacityScale)]
      + [LinearColorField(kf.chromaKey1Color)] + [LinearColorField(kf.chromaKey1Settings)]
      + [LinearColorField(kf.chromaKey2Color)] + [LinearColorField(kf.chromaKey2Settings)]
      + [LinearColorField(kf.chromaKey3Color)] + [LinearColorField(kf.chromaKey3Settings)])
      == h + EncTimespan(kf.time) + EncU8(EnumCode(Enums.BackgroundType, kf.backgroundType))
      + EncLinearColor(kf.backgroundColor) + EncFString(kf.backgroundName)
      + EncU8(EnumCode(Enums.MaskType, kf.maskType)) + EncFloat(kf.opacityScale)
      + EncLinearColor(kf.chromaKey1Color) + EncLinearColor(kf.chromaKey1Settings)
      + EncLinearColor(kf.chromaKey2Color) + EncLinearColor(kf.chromaKey2Settings)
      + EncLinearColor(kf.chromaKey3Color) + EncLinearColor(kf.chromaKey3Settings)
  {
    EnvironmentBytesUpto6(h, kf);
    var r := [TimespanField(kf.time)] + [EnumField(Enums.BackgroundType, kf.backgroundType)]
      + [LinearColorField(kf.backgroundColor)] + [TextField(kf.backgroundName)]
      + [EnumField(Enums.MaskType, kf.maskType)] + [FloatField(kf.opacityScale)];
    var b := h + EncTimespan(kf.time) + EncU8(EnumCode(Enums.BackgroundType, kf.backgroundType))
      + EncLinearColor(kf.backgroundColor) + EncFString(kf.backgroundName)
      + EncU8(EnumCode(Enums.MaskType, kf.maskType)) + EncFloat(kf.opacityScale);
    SnocStep(h, r, LinearColorField(kf.chromaKey1Color), b, EncLinearColor(kf.chromaKey1Color));
    r, b := r + [LinearColorField(kf.chromaKey1Color)], b + EncLinearColor(kf.chromaKey1Color);
    SnocStep(h, r, LinearColorField(kf.chromaKey1Settings), b, EncLinearColor(kf.chromaKey1Settings));
    r, b := r + [LinearColorField(kf.chromaKey1Settings)], b + EncLinearColor(kf.chromaKey1Settings);
    SnocStep(h, r, LinearColorField(kf.chromaKey2Color), b, EncLinearColor(kf.chromaKey2Color));
    r, b := r + [LinearColorField(kf.chromaKey2Color)], b + EncLinearColor(kf.chromaKey2Color);
    SnocStep(h, r, LinearColorField(kf.chromaKey2Settings), b, EncLinearColor(kf.chromaKey2Settings));
    r, b := r + [LinearColorField(kf.chromaKey2Settings)], b + EncLinearColor(kf.chromaKey2Settings);
    SnocStep(h, r, LinearColorField(kf.chromaKey3Color), b, EncLinearColor(kf.chromaKey3Color));
    r, b := r + [LinearColorField(kf.chromaKey3Color)], b + EncLinearColor(kf.chromaKey3Color);
    SnocStep(h, r, LinearColorField(kf.chromaKey3Settings), b, EncLinearColor(kf.chromaKey3Settings));
    r, b := r + [LinearColorField(kf.chromaKey3Settings)], b + EncLinearColor(kf.chromaKey3Settings);
  }

  /** writeEnvironmentKeyFrame's writes, one after the other, are the keyframe's field list encoded. */
  lemma EnvironmentBytes(h: seq<byte>, kf: EnvironmentKeyFrame)
    requires EnvironmentWritable(kf)
    ensures AllWritable(EnvironmentFields(kf))
    ensures h + EncFields(EnvironmentFields(kf))
      == h + EncTimespan(kf.time) + EncU8(EnumCode(Enums.BackgroundType, kf.backgroundType))
      + EncLinearColor(kf.backgroundColor) + EncFString(kf.backgroundName)
      + EncU8(EnumCode(Enums.MaskType, kf.maskType)) + EncFloat(kf.opacityScale)
      + EncLinearColor(kf.chromaKey1Color) + EncLinearColor(kf.chromaKey1Settings)
      + EncLinearColor(kf.chromaKey2Color) + EncLinearColor(kf.chromaKey2Settings)
      + EncLinearColor(kf.chromaKey3Color) + EncLinearColor(kf.chromaKey3Settings)
      + EncLinearColor(kf.despillColor) + EncLinearColor(kf.despillSettings)
      + EncLinearColor(kf.lightColor) + EncLinearColor(kf.alphaCoordinates)
  {
    EnvironmentBytesUpto12(h, kf);
    var r := [TimespanField(kf.time)] + [EnumField(Enums.BackgroundType, kf.backgroundType)]
      + [LinearColorField(kf.backgroundColor)] + [TextField(kf.backgroundName)]
      + [EnumField(Enums.MaskType, kf.maskType)] + [FloatField(kf.opacityScale)]
      + [LinearColorField(kf.chromaKey1Color)] + [LinearColorField(kf.chromaKey1Settings)]
      + [LinearColorField(kf.chromaKey2Color)] + [LinearColorField(kf.chromaKey2Settings)]
      + [LinearColorField(kf.chromaKey3Color)] + [LinearColorField(kf.chromaKey3Settings)];
    var b := h + EncTimespan(kf.time) + EncU8(EnumCode(Enums.BackgroundType, kf.backgroundType))
      + EncLinearColor(kf.backgroundColor) + EncFString(kf.backgroundName)
      + EncU8(EnumCode(Enums.MaskType, kf.maskType)) + EncFloat(kf.opacityScale)
      + EncLinearColor(kf.chromaKey1Color) + EncLinearColor(kf.chromaKey1Settings)
      + EncLinearColor(kf.chromaKey2Color) + EncLinearColor(kf.chromaKey2Settings)
      + EncLinearColor(kf.chromaKey3Color) + EncLinearColor(kf.chromaKey3Settings);
    SnocStep(h, r, LinearColorField(kf.despillColor), b, EncLinearColor(kf.despillColor));
    r, b := r + [LinearColorField(kf.despillColor)], b + EncLinearColor(kf.despillColor);
    SnocStep(h, r, LinearColorField(kf.despillSettings), b, EncLinearColor(kf.despillSettings));
    r, b := r + [LinearColorField(kf.despillSettings)], b + EncLinearColor(kf.despillSettings);
    SnocStep(h, r, LinearColorField(kf.lightColor), b, EncLinearColor(kf.lightColor));
    r, b := r + [LinearColorField(kf.lightColor)], b + EncLinearColor(kf.lightColor);
    SnocStep(h, r, LinearColorField(kf.alphaCoordinates), b, EncLinearColor(kf.alphaCoordinates));
    r, b := r + [LinearColorField(kf.alphaCoordinates)], b + EncLinearColor(kf.alphaCoordinates);
  }

  /** The first 6 fields of Metadata. */
  lemma MetadataBytesUpto6(h: seq<byte>, d: ProjectFile)
    requires TextFits(d.uniqueID) && TextFits(d.title) && TextFits(d.description)
    ensures AllWritable([TextField(d.uniqueID)] + [TextField(d.title)] + [TextField(d.description)]
      + [DateTimeField(d.dateAdded)] + [DateTimeField(d.dateReleased)]
      + [DateTimeField(d.dateLastPlayed)])
    ensures h + EncFields([TextField(d.uniqueID)] + [TextField(d.title)] + [TextField(d.description)]
      + [DateTimeField(d.dateAdded)] + [DateTimeField(d.dateReleased)]
      + [DateTimeField(d.dateLastPlayed)])
      == h + EncFString(d.uniqueID) + EncFString(d.title) + EncFString(d.description)
      + EncDateTime(d.dateAdded) + EncDateTime(d.dateReleased) + EncDateTime(d.dateLastPlayed)
  {
    var r, b := [TextField(d.uniqueID)], h + EncFString(d.uniqueID);
    EncFieldsOne(TextField(d.uniqueID));
    SnocStep(h, r, TextField(d.title), b, EncFString(d.title));
    r, b := r + [TextField(d.title)], b + EncFString(d.title);
    SnocStep(h, r, TextField(d.description), b, EncFString(d.description));
    r, b := r + [TextField(d.description)], b + EncFString(d.description);
    SnocStep(h, r, DateTimeField(d.dateAdded), b, EncDateTime(d.dateAdded));
    r, b := r + [DateTimeField(d.dateAdded)], b + EncDateTime(d.dateAdded);
    SnocStep(h, r, DateTimeField(d.dateReleased), b, EncDateTime(d.dateReleased));
    r, b := r + [DateTimeField(d.dateReleased)], b + EncDateTime(d.dateReleased);
    SnocStep(h, r, DateTimeField(d.dateLastPlayed), b, EncDateTime(d.dateLastPlayed));
    r, b := r + [DateTimeField(d.dateLastPlayed)], b + EncDateTime(d.dateLastPlayed);
  }

  /** The first 12 fields of Metadata. */
  lemma MetadataBytesUpto12(h: seq<byte>, d: ProjectFile)
    requires TextFits(d.uniqueID) && TextFits(d.title) && TextFits(d.description)
    ensures AllWritable([TextField(d.uniqueID)] + [TextField(d.title)] + [TextField(d.description)]
      + [DateTimeField(d.dateAdded)] + [DateTimeField(d.dateReleased)]
      + [DateTimeField(d.dateLastPlayed)] + [DateTimeField(d.dateEdited)]
      + [TimespanField(d.duration)] + [TimespanField(d.resumeTime)]
      + [TimespanField(d.abLoopStartTime)] + [TimespanField(d.abLoopEndTime)]
      + [UInt32Field(d.playCount)])
    ensures h + EncFields([TextField(d.uniqueID)] + [TextField(d.title)] + [TextField(d.description)]
      + [DateTimeField(d.dateAdded)] + [DateTimeField(d.dateReleased)]
      + [DateTimeField(d.dateLastPlayed)] + [DateTimeField(d.dateEdited)]
      + [TimespanField(d.duration)] + [TimespanField(d.resumeTime)]
      + [TimespanField(d.abLoopStartTime)] + [TimespanField(d.abLoopEndTime)]
      + [UInt32Field(d.playCount)])
      == h + EncFString(d.uniqueID) + EncFString(d.title) + EncFString(d.description)
      + EncDateTime(d.dateAdded) + EncDateTime(d.dateReleased) + EncDateTime(d.dateLastPlayed)
      + EncDateTime(d.dateEdited) + EncTimespan(d.duration) + EncTimespan(d.resumeTime)
      + EncTimespan(d.abLoopStartTime) + EncTimespan(d.abLoopEndTime) + EncU32(d.playCount)
  {
    MetadataBytesUpto6(h, d);
    var r := [TextField(d.uniqueID)] + [TextField(d.title)] + [TextField(d.description)]
      + [DateTimeField(d.dateAdded)] + [DateTimeField(d.dateReleased)]
      + [DateTimeField(d.dateLastPlayed)];
    var b := h + EncFString(d.uniqueID) + EncFString(d.title) + EncFString(d.description)
      + EncDateTime(d.dateAdded) + EncDateTime(d.dateReleased) + EncDateTime(d.dateLastPlayed);
    SnocStep(h, r, DateTimeField(d.dateEdited), b, EncDateTime(d.dateEdited));
    r, b := r + [DateTimeField(d.dateEdited)], b + EncDateTime(d.dateEdited);
    SnocStep(h, r, TimespanField(d.duration), b, EncTimespan(d.duration));
    r, b := r + [TimespanField(d.duration)], b + EncTimespan(d.duration);
    SnocStep(h, r, TimespanField(d.resumeTime), b, EncTimespan(d.resumeTime));
    r, b := r + [TimespanField(d.resumeTime)], b + EncTimespan(d.resumeTime);
    SnocStep(h, r, TimespanField(d.abLoopStartTime), b, EncTimespan(d.abLoopStartTime));
    r, b := r + [TimespanField(d.abLoopStartTime)], b + EncTimespan(d.abLoopStartTime);
    SnocStep(h, r, TimespanField(d.abLoopEndTime), b, EncTimespan(d.abLoopEndTime));
    r, b := r + [TimespanField(d.abLoopEndTime)], b + EncTimespan(d.abLoopEndTime);
    SnocStep(h, r, UInt32Field(d.playCount), b, EncU32(d.playCount));
    r, b := r + [UInt32Field(d.playCount)], b + EncU32(d.playCount);
  }

  /** writeData's metadata writes, one after the other, are the metadata field list encoded. */
  lemma MetadataBytes(h: seq<byte>, d: ProjectFile)
    requires TextFits(d.uniqueID) && TextFits(d.title) && TextFits(d.description)
    ensures AllWritable(MetadataFields(d))
    ensures h + EncFields(MetadataFields(d))
      == h + EncFString(d.uniqueID) + EncFString(d.title) + EncFString(d.description)
      + EncDateTime(d.dateAdded) + EncDateTime(d.dateReleased) + EncDateTime(d.dateLastPlayed)
      + EncDateTime(d.dateEdited) + EncTimespan(d.duration) + EncTimespan(d.resumeTime)
      + EncTimespan(d.abLoopStartTime) + EncTimespan(d.abLoopEndTime) + EncU32(d.playCount)
      + EncU32(d.comments) + EncU32(d.favorites) + EncBool(d.isFavorite) + EncFloat(d.averageRating)
      + EncU32(d.audioTrack)
  {
    MetadataBytesUpto12(h, d);
    var r := [TextField(d.uniqueID)] + [TextField(d.title)] + [TextField(d.description)]
      + [DateTimeField(d.dateAdded)] + [DateTimeField(d.dateReleased)]
      + [DateTimeField(d.dateLastPlayed)] + [DateTimeField(d.dateEdited)]
      + [TimespanField(d.duration)] + [TimespanField(d.resumeTime)]
      + [TimespanField(d.abLoopStartTime)] + [TimespanField(d.abLoopEndTime)]
      + [UInt32Field(d.playCount)];
    var b := h + EncFString(d.uniqueID) + EncFString(d.title) + EncFString(d.description)
      + EncDateTime(d.dateAdded) + EncDateTime(d.dateReleased) + EncDateTime(d.dateLastPlayed)
      + EncDateTime(d.dateEdited) + EncTimespan(d.duration) + EncTimespan(d.resumeTime)
      + EncTimespan(d.abLoopStartTime) + EncTimespan(d.abLoopEndTime) + EncU32(d.playCount);
    SnocStep(h, r, UInt32Field(d.comments), b, EncU32(d.comments));
    r, b := r + [UInt32Field(d.comments)], b + EncU32(d.comments);
    SnocStep(h, r, UInt32Field(d.favorites), b, EncU32(d.favorites));
    r, b := r + [UInt32Field(d.favorites)], b + EncU32(d.favorites);
    SnocStep(h, r, BoolField(d.isFavorite), b, EncBool(d.isFavorite));
    r, b := r + [BoolField(d.isFavorite)], b + EncBool(d.isFavorite);
    SnocStep(h, r, FloatField(d.averageRating), b, EncFloat(d.averageRating));
    r, b := r + [FloatField(d.averageRating)], b + EncFloat(d.averageRating);
    SnocStep(h, r, UInt32Field(d.audioTrack), b, EncU32(d.audioTrack));
    r, b := r + [UInt32Field(d.audioTrack)], b + EncU32(d.audioTrack);
  }

  class Writer {
    /** The buffer's bytes; SmartBuffer's `length` is their count. */
    var data: seq<byte>
    var writeOffset: nat

    /** new SmartBuffer(): no bytes, the cursor at 0. */
    constructor ()
      ensures data == [] && writeOffset == 0
    {
      data := [];
      writeOffset := 0;
    }

    /** The cursor never lies past the end of the buffer. */
    predicate Valid()
      reads this
    {
      writeOffset <= |data|
    }

    /** The cursor is at the end of the buffer: the next write appends. */
    predicate AtEnd()
      reads this
    {
      writeOffset == |data|
    }

    /** The write every SmartBuffer write helper ends in: the bytes at the cursor, the cursor after them. */
    method Put(b: seq<byte>)
      modifies this
      requires Valid()
      ensures Valid()
      ensures data == Overwrite(old(data), old(writeOffset), b) && writeOffset == old(writeOffset) + |b|
      ensures old(AtEnd()) ==> AtEnd() && data == old(data) + b
    {
      if writeOffset == |data| {
        OverwriteAtEnd(data, b);
      }
      data := Overwrite(data, writeOffset, b);
      writeOffset := writeOffset + |b|;
    }

    method WriteUInt8(n: U8)
      modifies this
      requires Valid()
      ensures Valid()
      ensures data == Overwrite(old(data), old(writeOffset), EncU8(n)) && writeOffset == old(writeOffset) + 1
      ensures old(AtEnd()) ==> AtEnd() && data == old(data) + EncU8(n)
    {
      Put(EncU8(n));
    }

    method WriteUInt32LE(n: U32)
      modifies this
      requires Valid()
      ensures Valid()
      ensures data == Overwrite(old(data), old(writeOffset), EncU32(n)) && writeOffset == old(writeOffset) + 4
      ensures old(AtEnd()) ==> AtEnd() && data == old(data) + EncU32(n)
    {
      Put(EncU32(n));
    }

    method WriteInt32LE(v: I32)
      modifies this
      requires Valid()
      ensures Valid()
      ensures data == Overwrite(old(data), old(writeOffset), EncI32(v)) && writeOffset == old(writeOffset) + 4
      ensures old(AtEnd()) ==> AtEnd() && data == old(data) + EncI32(v)
    {
      Put(EncI32(v));
    }

    method WriteBigInt64LE(v: I64)
      modifies this
      requires Valid()
      ensures Valid()
      ensures data == Overwrite(old(data), old(writeOffset), EncI64(v)) && writeOffset == old(writeOffset) + 8
      ensures old(AtEnd()) ==> AtEnd() && data == old(data) + EncI64(v)
    {
      Put(EncI64(v));
    }

    method WriteFloatLE(f: Float32)
      modifies this
      requires Valid()
      ensures Valid()
      ensures data == Overwrite(old(data), old(writeOffset), EncFloat(f)) && writeOffset == old(writeOffset) + 4
      ensures old(AtEnd()) ==> AtEnd() && data == old(data) + EncFloat(f)
    {
      Put(EncFloat(f));
    }

    /** writeString with the default encoding: the text's UTF-8 bytes. */
    method WriteString(s: Text)
      modifies this
      requires Valid()
      ensures Valid()
      ensures data == Overwrite(old(data), old(writeOffset), Utf8(s)) && writeOffset == old(writeOffset) + |Utf8(s)|
      ensures old(AtEnd()) ==> AtEnd() && data == old(data) + Utf8(s)
    {
      Put(Utf8(s));
    }

    /** writeFString; the terminator is writeUInt8() without an argument, which stores 0. */
    method WriteFString(s: Text)
      modifies this
      requires Valid() && TextFits(s)
      ensures Valid()
      ensures data == Overwrite(old(data), old(writeOffset), EncFString(s))
      ensures writeOffset == old(writeOffset) + |EncFString(s)|
      ensures old(AtEnd()) ==> AtEnd() && data == old(data) + EncFString(s)
    {
      ghost var d0, o := data, writeOffset;
      if |s| > 0 {
        WriteInt32LE(|s| + 1);
        ghost var d1 := data;
        WriteString(s);
        ghost var d2 := data;
        WriteUInt8(0);
        assert d1 == Overwrite(d0, o, EncI32(|s| + 1));
        assert d2 == Overwrite(d1, o + 4, Utf8(s));
        assert data == Overwrite(d2, o + 4 + |Utf8(s)|, EncU8(0));
        FStringWrites(d0, o, s);
      } else {
        WriteInt32LE(0);
      }
      if o == |d0| {
        OverwriteAtEnd(d0, EncFString(s));
      }
    }

    /** writeDateTime: the Unix offset is added, then the milliseconds become ticks. */
    method WriteDateTime(date: DateMs)
      modifies this
      requires Valid()
      ensures Valid()
      ensures data == Overwrite(old(data), old(writeOffset), EncDateTime(date)) && writeOffset == old(writeOffset) + 8
      ensures old(AtEnd()) ==> AtEnd() && data == old(data) + EncDateTime(date)
    {
      var ticks := (date + EpochOffsetMs) * TicksPerMs;
      WriteBigInt64LE(ticks);
    }

    /** writeTimespan: the milliseconds become ticks. */
    method WriteTimespan(time: Millis)
      modifies this
      requires Valid()
      ensures Valid()
      ensures data == Overwrite(old(data), old(writeOffset), EncTimespan(time)) && writeOffset == old(writeOffset) + 8
      ensures old(AtEnd()) ==> AtEnd() && data == old(data) + EncTimespan(time)
    {
      var ticks := time * TicksPerMs;
      WriteBigInt64LE(ticks);
    }

    /** writeBool: true as the word 1, false as 0. */
    method WriteBool(b: bool)
      modifies this
      requires Valid()
      ensures Valid()
      ensures data == Overwrite(old(data), old(writeOffset), EncBool(b)) && writeOffset == old(writeOffset) + 4
      ensures old(AtEnd()) ==> AtEnd() && data == old(data) + EncBool(b)
    {
      WriteUInt32LE(if b then 1 else 0);
    }

    /** writeVector2D: the components as floats, in the order x, y. */
    method WriteVector2D(v: Vector2D)
      modifies this
      requires Valid()
      ensures Valid()
      ensures data == Overwrite(old(data), old(writeOffset), EncVector2D(v)) && writeOffset == old(writeOffset) + 8
      ensures old(AtEnd()) ==> AtEnd() && data == old(data) + EncVector2D(v)
    {
      ghost var d0, o := data, writeOffset;
      WriteFloatLE(v.x);
      WriteFloatLE(v.y);
      OverwriteTwice(d0, o, EncFloat(v.x), EncFloat(v.y));
    }

    /** writeVector: the components as floats, in the order x, y, z. */
    method WriteVector(v: Vector)
      modifies this
      requires Valid()
      ensures Valid()
      ensures data == Overwrite(old(data), old(writeOffset), EncVector(v)) && writeOffset == old(writeOffset) + 12
      ensures old(AtEnd()) ==> AtEnd() && data == old(data) + EncVector(v)
    {
      ghost var d0, o := data, writeOffset;
      WriteFloatLE(v.x);
      WriteFloatLE(v.y);
      WriteFloatLE(v.z);
      OverwriteTwice(d0, o, EncFloat(v.x), EncFloat(v.y));
      OverwriteTwice(d0, o, EncFloat(v.x) + EncFloat(v.y), EncFloat(v.z));
    }

    /** writeVector4: the components as floats, in the order x, y, z, w. */
    method WriteVector4(v: Vector4)
      modifies this
      requires Valid()
      ensures Valid()
      ensures data == Overwrite(old(data), old(writeOffset), EncVector4(v)) && writeOffset == old(writeOffset) + 16
      ensures old(AtEnd()) ==> AtEnd() && data == old(data) + EncVector4(v)
    {
      ghost var d0, o := data, writeOffset;
      WriteFloatLE(v.x);
      WriteFloatLE(v.y);
      WriteFloatLE(v.z);
      WriteFloatLE(v.w);
      OverwriteTwice(d0, o, EncFloat(v.x), EncFloat(v.y));
      OverwriteTwice(d0, o, EncFloat(v.x) + EncFloat(v.y), EncFloat(v.z));
      OverwriteTwice(d0, o, EncFloat(v.x) + EncFloat(v.y) + EncFloat(v.z), EncFloat(v.w));
    }

    /** writeRotator: the components as floats, in the order pitch, yaw, roll. */
    method WriteRotator(r: Rotator)
      modifies this
      requires Valid()
      ensures Valid()
      ensures data == Overwrite(old(data), old(writeOffset), EncRotator(r)) && writeOffset == old(writeOffset) + 12
      ensures old(AtEnd()) ==> AtEnd() && data == old(data) + EncRotator(r)
    {
      ghost var d0, o := data, writeOffset;
      WriteFloatLE(r.pitch);
      WriteFloatLE(r.yaw);
      WriteFloatLE(r.roll);
      OverwriteTwice(d0, o, EncFloat(r.pitch), EncFloat(r.yaw));
      OverwriteTwice(d0, o, EncFloat(r.pitch) + EncFloat(r.yaw), EncFloat(r.roll));
    }

    /** writeLinearColor: the components as floats, in the order red, green, blue, alpha. */
    method WriteLinearColor(c: LinearColor)
      modifies this
      requires Valid()
      ensures Valid()
      ensures data == Overwrite(old(data), old(writeOffset), EncLinearColor(c)) && writeOffset == old(writeOffset) + 16
      ensures old(AtEnd()) ==> AtEnd() && data == old(data) + EncLinearColor(c)
    {
      ghost var d0, o := data, writeOffset;
      WriteFloatLE(c.red);
      WriteFloatLE(c.green);
      WriteFloatLE(c.blue);
      WriteFloatLE(c.alpha);
      OverwriteTwice(d0, o, EncFloat(c.red), EncFloat(c.green));
      OverwriteTwice(d0, o, EncFloat(c.red) + EncFloat(c.green), EncFloat(c.blue));
      OverwriteTwice(d0, o, EncFloat(c.red) + EncFloat(c.green) + EncFloat(c.blue), EncFloat(c.alpha));
    }

    /** writeHSTag: name, rating, start and end, then the track as a signed word. */
    method WriteHSTag(tag: Tag)
      modifies this
      requires Valid() && TagWritable(tag)
      ensures Valid() && AllWritable(TagFields(tag))
      ensures old(AtEnd()) ==> AtEnd() && data == old(data) + EncFields(TagFields(tag))
    {
      ghost var d0 := data;
      WriteFString(tag.name);
      WriteFloatLE(tag.rating);
      WriteTimespan(tag.start);
      WriteTimespan(tag.end);
      WriteInt32LE(tag.track);
      TagBytes(d0, tag);
    }

    /** writeFormatKeyFrame: one write per field, in the order of FormatFields. */
    method WriteFormatKeyFrame(kf: FormatKeyFrame)
      modifies this
      requires Valid()
      ensures Valid() && AllWritable(FormatFields(kf))
      ensures old(AtEnd()) ==> AtEnd() && data == old(data) + EncFields(FormatFields(kf))
    {
      ghost var d0 := data;
      WriteTimespan(kf.time);
      WriteUInt8(EnumCode(Enums.ProjectionMode, kf.projectionMode));
      WriteUInt8(EnumCode(Enums.StereoMode, kf.stereoMode));
      WriteBool(kf.eyeSwapEnabled);
      WriteBool(kf.forceMonoEnabled);
      WriteBool(kf.flipFrontBack);
      WriteBool(kf.flipLeftRight);
      WriteBool(kf.flipUpDown);
      WriteUInt8(EnumCode(Enums.AspectRatioType, kf.aspectRatioType));
      WriteFloatLE(kf.aspectRatio);
      WriteVector2D(kf.zoom);
      WriteVector2D(kf.pan);
      WriteUInt8(EnumCode(Enums.OrientationType, kf.orientationType));
      FormatBytes(d0, kf);
    }

    /** writeLensKeyFrame: one write per field, in the order of LensFields. */
    method WriteLensKeyFrame(kf: LensKeyFrame)
      modifies this
      requires Valid() && LensWritable(kf)
      ensures Valid() && AllWritable(LensFields(kf))
      ensures old(AtEnd()) ==> AtEnd() && data == old(data) + EncFields(LensFields(kf))
    {
      ghost var d0 := data;
      WriteTimespan(kf.time);
      WriteFString(kf.trueLensName);
      WriteFString(kf.exportLensName);
      WriteLinearColor(kf.trueLensCalibration);
      WriteLinearColor(kf.exportLensCalibration);
      WriteFloatLE(kf.trueFOV);
      WriteFloatLE(kf.exportFOV);
      LensBytes(d0, kf);
    }

    /** writeStitchKeyFrame: one write per field, in the order of StitchFields. */
    method WriteStitchKeyFrame(kf: StitchKeyFrame)
      modifies this
      requires Valid()
      ensures Valid() && AllWritable(StitchFields(kf))
      ensures old(AtEnd()) ==> AtEnd() && data == old(data) + EncFields(StitchFields(kf))
    {
      ghost var d0 := data;
      WriteTimespan(kf.time);
      WriteVector4(kf.shift);
      WriteVector4(kf.scale);
      WriteVector4(kf.shear);
      WriteVector4(kf.flare);
      WriteVector4(kf.slant);
      StitchBytes(d0, kf);
    }

    /** writeAlignmentKeyFrame: one write per field, in the order of AlignmentFields. */
    method WriteAlignmentKeyFrame(kf: AlignmentKeyFrame)
      modifies this
      requires Valid()
      ensures Valid() && AllWritable(AlignmentFields(kf))
      ensures old(AtEnd()) ==> AtEnd() && data == old(data) + EncFields(AlignmentFields(kf))
    {
      ghost var d0 := data;
      WriteTimespan(kf.time);
      WriteVector(kf.position);
      WriteRotator(kf.rotation);
      AlignmentBytes(d0, kf);
    }

    /** writeOrientationKeyFrame: one write per field, in the order of OrientationFields. */
    method WriteOrientationKeyFrame(kf: OrientationKeyFrame)
      modifies this
      requires Valid()
      ensures Valid() && AllWritable(OrientationFields(kf))
      ensures old(AtEnd()) ==> AtEnd() && data == old(data) + EncFields(OrientationFields(kf))
    {
      ghost var d0 := data;
      WriteTimespan(kf.time);
      WriteRotator(kf.orientation);
      OrientationBytes(d0, kf);
    }

    /** writeOriginKeyFrame: one write per field, in the order of OriginFields. */
    method WriteOriginKeyFrame(kf: OriginKeyFrame)
      modifies this
      requires Valid()
      ensures Valid() && AllWritable(OriginFields(kf))
      ensures old(AtEnd()) ==> AtEnd() && data == old(data) + EncFields(OriginFields(kf))
    {
      ghost var d0 := data;
      WriteTimespan(kf.time);
      WriteVector(kf.origin);
      OriginBytes(d0, kf);
    }

    /** writeMotionKeyFrame: one write per field, in the order of MotionFields. */
    method WriteMotionKeyFrame(kf: MotionKeyFrame)
      modifies this
      requires Valid()
      ensures Valid() && AllWritable(MotionFields(kf))
      ensures old(AtEnd()) ==> AtEnd() && data == old(data) + EncFields(MotionFields(kf))
    {
      ghost var d0 := data;
      WriteTimespan(kf.time);
      WriteFloatLE(kf.motionDistance);
      MotionBytes(d0, kf);
    }

    /** writeAutoFocusKeyFrame: one write per field, in the order of AutoFocusFields. */
    method WriteAutoFocusKeyFrame(kf: AutoFocusKeyFrame)
      modifies this
      requires Valid()
      ensures Valid() && AllWritable(AutoFocusFields(kf))
      ensures old(AtEnd()) ==> AtEnd() && data == old(data) + EncFields(AutoFocusFields(kf))
    {
      ghost var d0 := data;
      WriteTimespan(kf.time);
      WriteRotator(kf.rotation);
      WriteFloatLE(kf.focalDistanceOverride);
      WriteFloatLE(kf.minFocusDistance);
      WriteFloatLE(kf.maxFocusDistance);
      WriteFloatLE(kf.focusTransitionSpeed);
      AutoFocusBytes(d0, kf);
    }

    /** writeSyncKeyFrame: one write per field, in the order of SyncFields. */
    method WriteSyncKeyFrame(kf: SyncKeyFrame)
      modifies this
      requires Valid()
      ensures Valid() && AllWritable(SyncFields(kf))
      ensures old(AtEnd()) ==> AtEnd() && data == old(data) + EncFields(SyncFields(kf))
    {
      ghost var d0 := data;
      WriteTimespan(kf.time);
      WriteTimespan(kf.startingTicksOffset);
      WriteTimespan(kf.ticksPerHoursOffset);
      SyncBytes(d0, kf);
    }

    /** writeTransitionKeyFrame: one write per field, in the order of TransitionFields. */
    method WriteTransitionKeyFrame(kf: TransitionKeyFrame)
      modifies this
      requires Valid()
      ensures Valid() && AllWritable(TransitionFields(kf))
      ensures old(AtEnd()) ==> AtEnd() && data == old(data) + EncFields(TransitionFields(kf))
    {
      ghost var d0 := data;
      WriteTimespan(kf.time);
      WriteUInt8(EnumCode(Enums.KeyFrameTransitionType, kf.transitionType));
      WriteTimespan(kf.duration);
      TransitionBytes(d0, kf);
    }

    /** writeImageKeyFrame: one write per field, in the order of ImageFields. */
    method WriteImageKeyFrame(kf: ImageKeyFrame)
      modifies this
      requires Valid()
      ensures Valid() && AllWritable(ImageFields(kf))
      ensures old(AtEnd()) ==> AtEnd() && data == old(data) + EncFields(ImageFields(kf))
    {
      ghost var d0 := data;
      WriteTimespan(kf.time);
      WriteFloatLE(kf.sharpness);
      WriteFloatLE(kf.colorExposureBias);
      WriteFloatLE(kf.colorWhiteTemperature);
      WriteFloatLE(kf.colorWhiteTint);
      WriteVector4(kf.colorSaturation);
      WriteVector4(kf.colorContrast);
      WriteVector4(kf.colorGamma);
      WriteVector4(kf.colorGain);
      WriteVector4(kf.colorOffset);
      WriteFloatLE(kf.shadows);
      WriteFloatLE(kf.midtones);
      WriteFloatLE(kf.highlights);
      ImageBytes(d0, kf);
    }

    /** writeAudioKeyFrame: one write per field, in the order of AudioFields. */
    method WriteAudioKeyFrame(kf: AudioKeyFrame)
      modifies this
      requires Valid()
      ensures Valid() && AllWritable(AudioFields(kf))
      ensures old(AtEnd()) ==> AtEnd() && data == old(data) + EncFields(AudioFields(kf))
    {
      ghost var d0 := data;
      WriteTimespan(kf.time);
      WriteFloatLE(kf.timeOffset);
      WriteFloatLE(kf.volumeMultiplier);
      AudioBytes(d0, kf);
    }

    /** writeEnvironmentKeyFrame: one write per field, in the order of EnvironmentFields. */
    method WriteEnvironmentKeyFrame(kf: EnvironmentKeyFrame)
      modifies this
      requires Valid() && EnvironmentWritable(kf)
      ensures Valid() && AllWritable(EnvironmentFields(kf))
      ensures old(AtEnd()) ==> AtEnd() && data == old(data) + EncFields(EnvironmentFields(kf))
    {
      ghost var d0 := data;
      WriteTimespan(kf.time);
      WriteUInt8(EnumCode(Enums.BackgroundType, kf.backgroundType));
      WriteLinearColor(kf.backgroundColor);
      WriteFString(kf.backgroundName);
      WriteUInt8(EnumCode(Enums.MaskType, kf.maskType));
      WriteFloatLE(kf.opacityScale);
      WriteLinearColor(kf.chromaKey1Color);
      WriteLinearColor(kf.chromaKey1Settings);
      WriteLinearColor(kf.chromaKey2Color);
      WriteLinearColor(kf.chromaKey2Settings);
      WriteLinearColor(kf.chromaKey3Color);
      WriteLinearColor(kf.chromaKey3Settings);
      WriteLinearColor(kf.despillColor);
      WriteLinearColor(kf.despillSettings);
      WriteLinearColor(kf.lightColor);
      WriteLinearColor(kf.alphaCoordinates);
      EnvironmentBytes(d0, kf);
    }

    /** writeArray(data.tags, writeHSTag): the count as UInt32, then one record per element, in order. */
    method WriteTags(xs: seq<Tag>)
      modifies this
      requires Valid() && TagsWritable(xs)
      ensures Valid() && ArrayWritable(Records(xs, TagFields))
      ensures old(AtEnd()) ==> AtEnd() && data == old(data) + EncArray(Records(xs, TagFields))
    {
      ghost var rs, d0, atEnd := Records(xs, TagFields), data, AtEnd();
      TagArrayWritable(xs);
      RecordsAt(xs, TagFields);
      WriteUInt32LE(|xs|);
      assert rs[..0] == [];
      for i := 0 to |xs|
        invariant Valid()
        invariant atEnd ==> AtEnd() && data == d0 + EncU32(|xs|) + EncElems(rs[..i])
      {
        ElemStep(d0 + EncU32(|xs|), rs, i);
        WriteHSTag(xs[i]);
      }
      assert rs[..|xs|] == rs;
      AppendAssoc(d0, EncU32(|xs|), EncElems(rs));
    }

    /** writeArray over a track with writeFormatKeyFrame: the count as UInt32, then one record per element, in order. */
    method WriteFormatKeyFrames(xs: seq<FormatKeyFrame>)
      modifies this
      requires Valid() && |xs| < TWO32
      ensures Valid() && ArrayWritable(Records(xs, FormatFields))
      ensures old(AtEnd()) ==> AtEnd() && data == old(data) + EncArray(Records(xs, FormatFields))
    {
      ghost var rs, d0, atEnd := Records(xs, FormatFields), data, AtEnd();
      FormatArrayWritable(xs);
      RecordsAt(xs, FormatFields);
      WriteUInt32LE(|xs|);
      assert rs[..0] == [];
      for i := 0 to |xs|
        invariant Valid()
        invariant atEnd ==> AtEnd() && data == d0 + EncU32(|xs|) + EncElems(rs[..i])
      {
        ElemStep(d0 + EncU32(|xs|), rs, i);
        WriteFormatKeyFrame(xs[i]);
      }
      assert rs[..|xs|] == rs;
      AppendAssoc(d0, EncU32(|xs|), EncElems(rs));
    }

    /** writeArray over a track with writeLensKeyFrame: the count as UInt32, then one record per element, in order. */
    method WriteLensKeyFrames(xs: seq<LensKeyFrame>)
      modifies this
      requires Valid() && |xs| < TWO32 && forall i :: 0 <= i < |xs| ==> LensWritable(xs[i])
      ensures Valid() && ArrayWritable(Records(xs, LensFields))
      ensures old(AtEnd()) ==> AtEnd() && data == old(data) + EncArray(Records(xs, LensFields))
    {
      ghost var rs, d0, atEnd := Records(xs, LensFields), data, AtEnd();
      LensArrayWritable(xs);
      RecordsAt(xs, LensFields);
      WriteUInt32LE(|xs|);
      assert rs[..0] == [];
      for i := 0 to |xs|
        invariant Valid()
        invariant atEnd ==> AtEnd() && data == d0 + EncU32(|xs|) + EncElems(rs[..i])
      {
        ElemStep(d0 + EncU32(|xs|), rs, i);
        WriteLensKeyFrame(xs[i]);
      }
      assert rs[..|xs|] == rs;
      AppendAssoc(d0, EncU32(|xs|), EncElems(rs));
    }

    /** writeArray over a track with writeStitchKeyFrame: the count as UInt32, then one record per element, in order. */
    method WriteStitchKeyFrames(xs: seq<StitchKeyFrame>)
      modifies this
      requires Valid() && |xs| < TWO32
      ensures Valid() && ArrayWritable(Records(xs, StitchFields))
      ensures old(AtEnd()) ==> AtEnd() && data == old(data) + EncArray(Records(xs, StitchFields))
    {
      ghost var rs, d0, atEnd := Records(xs, StitchFields), data, AtEnd();
      StitchArrayWritable(xs);
      RecordsAt(xs, StitchFields);
      WriteUInt32LE(|xs|);
      assert rs[..0] == [];
      for i := 0 to |xs|
        invariant Valid()
        invariant atEnd ==> AtEnd() && data == d0 + EncU32(|xs|) + EncElems(rs[..i])
      {
        ElemStep(d0 + EncU32(|xs|), rs, i);
        WriteStitchKeyFrame(xs[i]);
      }
      assert rs[..|xs|] == rs;
      AppendAssoc(d0, EncU32(|xs|), EncElems(rs));
    }

    /** writeArray over a track with writeAlignmentKeyFrame: the count as UInt32, then one record per element, in order. */
    method WriteAlignmentKeyFrames(xs: seq<AlignmentKeyFrame>)
      modifies this
      requires Valid() && |xs| < TWO32
      ensures Valid() && ArrayWritable(Records(xs, AlignmentFields))
      ensures old(AtEnd()) ==> AtEnd() && data == old(data) + EncArray(Records(xs, AlignmentFields))
    {
      ghost var rs, d0, atEnd := Records(xs, AlignmentFields), data, AtEnd();
      AlignmentArrayWritable(xs);
      RecordsAt(xs, AlignmentFields);
      WriteUInt32LE(|xs|);
      assert rs[..0] == [];
      for i := 0 to |xs|
        invariant Valid()
        invariant atEnd ==> AtEnd() && data == d0 + EncU32(|xs|) + EncElems(rs[..i])
      {
        ElemStep(d0 + EncU32(|xs|), rs, i);
        WriteAlignmentKeyFrame(xs[i]);
      }
      assert rs[..|xs|] == rs;
      AppendAssoc(d0, EncU32(|xs|), EncElems(rs));
    }

    /** writeArray over a track with writeOrientationKeyFrame: the count as UInt32, then one record per element, in order. */
    method WriteOrientationKeyFrames(xs: seq<OrientationKeyFrame>)
      modifies this
      requires Valid() && |xs| < TWO32
      ensures Valid() && ArrayWritable(Records(xs, OrientationFields))
      ensures old(AtEnd()) ==> AtEnd() && data == old(data) + EncArray(Records(xs, OrientationFields))
    {
      ghost var rs, d0, atEnd := Records(xs, OrientationFields), data, AtEnd();
      OrientationArrayWritable(xs);
      RecordsAt(xs, OrientationFields);
      WriteUInt32LE(|xs|);
      assert rs[..0] == [];
      for i := 0 to |xs|
        invariant Valid()
        invariant atEnd ==> AtEnd() && data == d0 + EncU32(|xs|) + EncElems(rs[..i])
      {
        ElemStep(d0 + EncU32(|xs|), rs, i);
        WriteOrientationKeyFrame(xs[i]);
      }
      assert rs[..|xs|] == rs;
      AppendAssoc(d0, EncU32(|xs|), EncElems(rs));
    }

    /** writeArray over a track with writeOriginKeyFrame: the count as UInt32, then one record per element, in order. */
    method WriteOriginKeyFrames(xs: seq<OriginKeyFrame>)
      modifies this
      requires Valid() && |xs| < TWO32
      ensures Valid() && ArrayWritable(Records(xs, OriginFields))
      ensures old(AtEnd()) ==> AtEnd() && data == old(data) + EncArray(Records(xs, OriginFields))
    {
      ghost var rs, d0, atEnd := Records(xs, OriginFields), data, AtEnd();
      OriginArrayWritable(xs);
      RecordsAt(xs, OriginFields);
      WriteUInt32LE(|xs|);
      assert rs[..0] == [];
      for i := 0 to |xs|
        invariant Valid()
        invariant atEnd ==> AtEnd() && data == d0 + EncU32(|xs|) + EncElems(rs[..i])
      {
        ElemStep(d0 + EncU32(|xs|), rs, i);
        WriteOriginKeyFrame(xs[i]);
      }
      assert rs[..|xs|] == rs;
      AppendAssoc(d0, EncU32(|xs|), EncElems(rs));
    }

    /** writeArray over a track with writeMotionKeyFrame: the count as UInt32, then one record per element, in order. */
    method WriteMotionKeyFrames(xs: seq<MotionKeyFrame>)
      modifies this
      requires Valid() && |xs| < TWO32
      ensures Valid() && ArrayWritable(Records(xs, MotionFields))
      ensures old(AtEnd()) ==> AtEnd() && data == old(data) + EncArray(Records(xs, MotionFields))
    {
      ghost var rs, d0, atEnd := Records(xs, MotionFields), data, AtEnd();
      MotionArrayWritable(xs);
      RecordsAt(xs, MotionFields);
      WriteUInt32LE(|xs|);
      assert rs[..0] == [];
      for i := 0 to |xs|
        invariant Valid()
        invariant atEnd ==> AtEnd() && data == d0 + EncU32(|xs|) + EncElems(rs[..i])
      {
        ElemStep(d0 + EncU32(|xs|), rs, i);
        WriteMotionKeyFrame(xs[i]);
      }
      assert rs[..|xs|] == rs;
      AppendAssoc(d0, EncU32(|xs|), EncElems(rs));
    }

    /** writeArray over a track with writeAutoFocusKeyFrame: the count as UInt32, then one record per element, in order. */
    method WriteAutoFocusKeyFrames(xs: seq<AutoFocusKeyFrame>)
      modifies this
      requires Valid() && |xs| < TWO32
      ensures Valid() && ArrayWritable(Records(xs, AutoFocusFields))
      ensures old(AtEnd()) ==> AtEnd() && data == old(data) + EncArray(Records(xs, AutoFocusFields))
    {
      ghost var rs, d0, atEnd := Records(xs, AutoFocusFields), data, AtEnd();
      AutoFocusArrayWritable(xs);
      RecordsAt(xs, AutoFocusFields);
      WriteUInt32LE(|xs|);
      assert rs[..0] == [];
      for i := 0 to |xs|
        invariant Valid()
        invariant atEnd ==> AtEnd() && data == d0 + EncU32(|xs|) + EncElems(rs[..i])
      {
        ElemStep(d0 + EncU32(|xs|), rs, i);
        WriteAutoFocusKeyFrame(xs[i]);
      }
      assert rs[..|xs|] == rs;
      AppendAssoc(d0, EncU32(|xs|), EncElems(rs));
    }

    /** writeArray over a track with writeSyncKeyFrame: the count as UInt32, then one record per element, in order. */
    method WriteSyncKeyFrames(xs: seq<SyncKeyFrame>)
      modifies this
      requires Valid() && |xs| < TWO32
      ensures Valid() && ArrayWritable(Records(xs, SyncFields))
      ensures old(AtEnd()) ==> AtEnd() && data == old(data) + EncArray(Records(xs, SyncFields))
    {
      ghost var rs, d0, atEnd := Records(xs, SyncFields), data, AtEnd();
      SyncArrayWritable(xs);
      RecordsAt(xs, SyncFields);
      WriteUInt32LE(|xs|);
      assert rs[..0] == [];
      for i := 0 to |xs|
        invariant Valid()
        invariant atEnd ==> AtEnd() && data == d0 + EncU32(|xs|) + EncElems(rs[..i])
      {
        ElemStep(d0 + EncU32(|xs|), rs, i);
        WriteSyncKeyFrame(xs[i]);
      }
      assert rs[..|xs|] == rs;
      AppendAssoc(d0, EncU32(|xs|), EncElems(rs));
    }

    /** writeArray over a track with writeTransitionKeyFrame: the count as UInt32, then one record per element, in order. */
    method WriteTransitionKeyFrames(xs: seq<TransitionKeyFrame>)
      modifies this
      requires Valid() && |xs| < TWO32
      ensures Valid() && ArrayWritable(Records(xs, TransitionFields))
      ensures old(AtEnd()) ==> AtEnd() && data == old(data) + EncArray(Records(xs, TransitionFields))
    {
      ghost var rs, d0, atEnd := Records(xs, TransitionFields), data, AtEnd();
      TransitionArrayWritable(xs);
      RecordsAt(xs, TransitionFields);
      WriteUInt32LE(|xs|);
      assert rs[..0] == [];
      for i := 0 to |xs|
        invariant Valid()
        invariant atEnd ==> AtEnd() && data == d0 + EncU32(|xs|) + EncElems(rs[..i])
      {
        ElemStep(d0 + EncU32(|xs|), rs, i);
        WriteTransitionKeyFrame(xs[i]);
      }
      assert rs[..|xs|] == rs;
      AppendAssoc(d0, EncU32(|xs|), EncElems(rs));
    }

    /** writeArray over a track with writeImageKeyFrame: the count as UInt32, then one record per element, in order. */
    method WriteImageKeyFrames(xs: seq<ImageKeyFrame>)
      modifies this
      requires Valid() && |xs| < TWO32
      ensures Valid() && ArrayWritable(Records(xs, ImageFields))
      ensures old(AtEnd()) ==> AtEnd() && data == old(data) + EncArray(Records(xs, ImageFields))
    {
      ghost var rs, d0, atEnd := Records(xs, ImageFields), data, AtEnd();
      ImageArrayWritable(xs);
      RecordsAt(xs, ImageFields);
      WriteUInt32LE(|xs|);
      assert rs[..0] == [];
      for i := 0 to |xs|
        invariant Valid()
        invariant atEnd ==> AtEnd() && data == d0 + EncU32(|xs|) + EncElems(rs[..i])
      {
        ElemStep(d0 + EncU32(|xs|), rs, i);
        WriteImageKeyFrame(xs[i]);
      }
      assert rs[..|xs|] == rs;
      AppendAssoc(d0, EncU32(|xs|), EncElems(rs));
    }

    /** writeArray over a track with writeAudioKeyFrame: the count as UInt32, then one record per element, in order. */
    method WriteAudioKeyFrames(xs: seq<AudioKeyFrame>)
      modifies this
      requires Valid() && |xs| < TWO32
      ensures Valid() && ArrayWritable(Records(xs, AudioFields))
      ensures old(AtEnd()) ==> AtEnd() && data == old(data) + EncArray(Records(xs, AudioFields))
    {
      ghost var rs, d0, atEnd := Records(xs, AudioFields), data, AtEnd();
      AudioArrayWritable(xs);
      RecordsAt(xs, AudioFields);
      WriteUInt32LE(|xs|);
      assert rs[..0] == [];
      for i := 0 to |xs|
        invariant Valid()
        invariant atEnd ==> AtEnd() && data == d0 + EncU32(|xs|) + EncElems(rs[..i])
      {
        ElemStep(d0 + EncU32(|xs|), rs, i);
        WriteAudioKeyFrame(xs[i]);
      }
      assert rs[..|xs|] == rs;
      AppendAssoc(d0, EncU32(|xs|), EncElems(rs));
    }

    /** writeArray over a track with writeEnvironmentKeyFrame: the count as UInt32, then one record per element, in order. */
    method WriteEnvironmentKeyFrames(xs: seq<EnvironmentKeyFrame>)
      modifies this
      requires Valid() && |xs| < TWO32 && forall i :: 0 <= i < |xs| ==> EnvironmentWritable(xs[i])
      ensures Valid() && ArrayWritable(Records(xs, EnvironmentFields))
      ensures old(AtEnd()) ==> AtEnd() && data == old(data) + EncArray(Records(xs, EnvironmentFields))
    {
      ghost var rs, d0, atEnd := Records(xs, EnvironmentFields), data, AtEnd();
      EnvironmentArrayWritable(xs);
      RecordsAt(xs, EnvironmentFields);
      WriteUInt32LE(|xs|);
      assert rs[..0] == [];
      for i := 0 to |xs|
        invariant Valid()
        invariant atEnd ==> AtEnd() && data == d0 + EncU32(|xs|) + EncElems(rs[..i])
      {
        ElemStep(d0 + EncU32(|xs|), rs, i);
        WriteEnvironmentKeyFrame(xs[i]);
      }
      assert rs[..|xs|] == rs;
      AppendAssoc(d0, EncU32(|xs|), EncElems(rs));
    }

    /** The metadata stretch of writeData: one write per field, in the order of MetadataFields. */
    method WriteMetadata(d: ProjectFile)
      modifies this
      requires Valid() && TextFits(d.uniqueID) && TextFits(d.title) && TextFits(d.description)
      ensures Valid() && AllWritable(MetadataFields(d))
      ensures old(AtEnd()) ==> AtEnd() && data == old(data) + EncFields(MetadataFields(d))
    {
      ghost var d0 := data;
      WriteFString(d.uniqueID);
      WriteFString(d.title);
      WriteFString(d.description);
      WriteDateTime(d.dateAdded);
      WriteDateTime(d.dateReleased);
      WriteDateTime(d.dateLastPlayed);
      WriteDateTime(d.dateEdited);
      WriteTimespan(d.duration);
      WriteTimespan(d.resumeTime);
      WriteTimespan(d.abLoopStartTime);
      WriteTimespan(d.abLoopEndTime);
      WriteUInt32LE(d.playCount);
      WriteUInt32LE(d.comments);
      WriteUInt32LE(d.favorites);
      WriteBool(d.isFavorite);
      WriteFloatLE(d.averageRating);
      WriteUInt32LE(d.audioTrack);
      MetadataBytes(d0, d);
    }

    /** The track stretch of writeData: the thirteen keyframe arrays, in track order. */
    method WriteProjectionKeyFrames(p: ProjectionKeyFrames)
      modifies this
      requires Valid() && TracksWritable(p)
      ensures Valid()
      ensures old(AtEnd()) ==> AtEnd() && data == old(data) + EncProjectionKeyFrames(p)
    {
      ghost var d0 := data;
      TracksAppended(d0, p);
      WriteFormatKeyFrames(p.formatKFs);
      WriteLensKeyFrames(p.lensKFs);
      WriteStitchKeyFrames(p.stitchKFs);
      WriteAlignmentKeyFrames(p.alignmentKFs);
      WriteOrientationKeyFrames(p.orientationKFs);
      WriteOriginKeyFrames(p.originKFs);
      WriteMotionKeyFrames(p.motionKFs);
      WriteAutoFocusKeyFrames(p.autoFocusKFs);
      WriteSyncKeyFrames(p.syncKFs);
      WriteTransitionKeyFrames(p.transitionKFs);
      WriteImageKeyFrames(p.imageKFs);
      WriteAudioKeyFrames(p.audioKFs);
      WriteEnvironmentKeyFrames(p.environmentKFs);
    }

    /** writeData from the version word on: the version, the metadata, the tag array and the tracks. */
    method WriteBody(d: ProjectFile)
      modifies this
      requires Valid() && DocumentWritable(d)
      ensures Valid()
      ensures old(AtEnd()) ==> AtEnd() && data == old(data) + EncBody(d)
    {
      ghost var d0 := data;
      WriteUInt32LE(d.version);
      WriteMetadata(d);
      WriteTags(d.tags);
      WriteProjectionKeyFrames(d.projectionKFs);
      BodyAppended(d0, d);
    }
  }

  /** The thirteen track arrays, appended one by one, are their concatenation appended at once. */
  lemma TracksRegroup(h: seq<byte>, a0: seq<byte>, a1: seq<byte>, a2: seq<byte>, a3: seq<byte>, a4: seq<byte>, a5: seq<byte>, a6: seq<byte>, a7: seq<byte>, a8: seq<byte>, a9: seq<byte>, a10: seq<byte>, a11: seq<byte>, a12: seq<byte>)
    ensures h + a0 + a1 + a2 + a3 + a4 + a5 + a6 + a7 + a8 + a9 + a10 + a11 + a12 == h + (a0 + a1 + a2 + a3 + a4 + a5 + a6 + a7 + a8 + a9 + a10 + a11 + a12)
  {
    AppendAssoc(h, a0, a1);
    AppendAssoc(h, a0 + a1, a2);
    AppendAssoc(h, a0 + a1 + a2, a3);
    AppendAssoc(h, a0 + a1 + a2 + a3, a4);
    AppendAssoc(h, a0 + a1 + a2 + a3 + a4, a5);
    AppendAssoc(h, a0 + a1 + a2 + a3 + a4 + a5, a6);
    AppendAssoc(h, a0 + a1 + a2 + a3 + a4 + a5 + a6, a7);
    AppendAssoc(h, a0 + a1 + a2 + a3 + a4 + a5 + a6 + a7, a8);
    AppendAssoc(h, a0 + a1 + a2 + a3 + a4 + a5 + a6 + a7 + a8, a9);
    AppendAssoc(h, a0 + a1 + a2 + a3 + a4 + a5 + a6 + a7 + a8 + a9, a10);
    AppendAssoc(h, a0 + a1 + a2 + a3 + a4 + a5 + a6 + a7 + a8 + a9 + a10, a11);
    AppendAssoc(h, a0 + a1 + a2 + a3 + a4 + a5 + a6 + a7 + a8 + a9 + a10 + a11, a12);
  }

  /** The thirteen arrays appended one after the other are the tracks' bytes appended at once. */
  lemma TracksAppended(h: seq<byte>, p: ProjectionKeyFrames)
    requires TracksWritable(p)
    ensures ArrayWritable(Records(p.formatKFs, FormatFields))
    ensures ArrayWritable(Records(p.lensKFs, LensFields))
    ensures ArrayWritable(Records(p.stitchKFs, StitchFields))
    ensures ArrayWritable(Records(p.alignmentKFs, AlignmentFields))
    ensures ArrayWritable(Records(p.orientationKFs, OrientationFields))
    ensures ArrayWritable(Records(p.originKFs, OriginFields))
    ensures ArrayWritable(Records(p.motionKFs, MotionFields))
    ensures ArrayWritable(Records(p.autoFocusKFs, AutoFocusFields))
    ensures ArrayWritable(Records(p.syncKFs, SyncFields))
    ensures ArrayWritable(Records(p.transitionKFs, TransitionFields))
    ensures ArrayWritable(Records(p.imageKFs, ImageFields))
    ensures ArrayWritable(Records(p.audioKFs, AudioFields))
    ensures ArrayWritable(Records(p.environmentKFs, EnvironmentFields))
    ensures h + EncArray(Records(p.formatKFs, FormatFields)) + EncArray(Records(p.lensKFs, LensFields))
      + EncArray(Records(p.stitchKFs, StitchFields))
      + EncArray(Records(p.alignmentKFs, AlignmentFields))
      + EncArray(Records(p.orientationKFs, OrientationFields))
      + EncArray(Records(p.originKFs, OriginFields)) + EncArray(Records(p.motionKFs, MotionFields))
      + EncArray(Records(p.autoFocusKFs, AutoFocusFields))
      + EncArray(Records(p.syncKFs, SyncFields))
      + EncArray(Records(p.transitionKFs, TransitionFields))
      + EncArray(Records(p.imageKFs, ImageFields)) + EncArray(Records(p.audioKFs, AudioFields))
      + EncArray(Records(p.environmentKFs, EnvironmentFields))
      == h + EncProjectionKeyFrames(p)
  {
    TracksUnfold(p);
    TracksRegroup(h,
      EncArray(Records(p.formatKFs, FormatFields)), EncArray(Records(p.lensKFs, LensFields)),
      EncArray(Records(p.stitchKFs, StitchFields)), EncArray(Records(p.alignmentKFs, AlignmentFields)),
      EncArray(Records(p.orientationKFs, OrientationFields)), EncArray(Records(p.originKFs, OriginFields)),
      EncArray(Records(p.motionKFs, MotionFields)), EncArray(Records(p.autoFocusKFs, AutoFocusFields)),
      EncArray(Records(p.syncKFs, SyncFields)), EncArray(Records(p.transitionKFs, TransitionFields)),
      EncArray(Records(p.imageKFs, ImageFields)), EncArray(Records(p.audioKFs, AudioFields)),
      EncArray(Records(p.environmentKFs, EnvironmentFields)));
  }

  /**
   * writeData: a placeholder length word, the version, the metadata fields,
   * the tags and the thirteen tracks; then the cursor goes back to 0 and the
   * length word is overwritten with the number of bytes after it.
   */
  method WriteData(d: ProjectFile) returns (out: seq<byte>)
    requires PayloadFits(d)
    ensures out == EncData(d)
  {
    var sb := new Writer();
    sb.WriteUInt32LE(0);
    sb.WriteBody(d);
    var length := |sb.data| - 4;
    Patched(d, sb.data, length);
    sb.writeOffset := 0;
    sb.WriteUInt32LE(length);
    out := sb.data;
  }

  /** The four stretches after the content-length word, appended one after the other, are the body appended at once. */
  lemma BodyAppended(h: seq<byte>, d: ProjectFile)
    requires DocumentWritable(d)
    ensures AllWritable(MetadataFields(d)) && ArrayWritable(Records(d.tags, TagFields))
    ensures h + EncU32(d.version) + EncFields(MetadataFields(d)) + EncArray(Records(d.tags, TagFields))
      + EncProjectionKeyFrames(d.projectionKFs) == h + EncBody(d)
  {
    BodyLayout(d);
    BodyRegroup(h, EncU32(d.version), EncFields(MetadataFields(d)), EncArray(Records(d.tags, TagFields)),
      EncProjectionKeyFrames(d.projectionKFs), EncBody(d));
  }

  /** Four pieces appended one by one are the body they make appended at once. */
  lemma BodyRegroup(h: seq<byte>, v: seq<byte>, m: seq<byte>, a: seq<byte>, w: seq<byte>, body: seq<byte>)
    requires body == v + m + a + w
    ensures h + v + m + a + w == h + body
  {
    AppendAssoc(h, v, m);
    AppendAssoc(h, v + m, a);
    AppendAssoc(h, v + m + a, w);
  }

  /** Back-patching the zero word in front of the body gives writeData's result. */
  lemma Patched(d: ProjectFile, all: seq<byte>, length: int)
    requires PayloadFits(d)
    requires all == [] + EncU32(0) + EncBody(d) && length == |all| - 4
    ensures 0 <= length < TWO32
    ensures Overwrite(all, 0, EncU32(length)) == EncData(d)
  {
    assert [] + EncU32(0) == EncU32(0);
    PatchLength(EncBody(d));
  }

  /** The body is the version word, the metadata fields, the tag array and the tracks, one after the other. */
  lemma BodyLayout(d: ProjectFile)
    requires DocumentWritable(d)
    ensures AllWritable(MetadataFields(d)) && ArrayWritable(Records(d.tags, TagFields))
    ensures EncBody(d) == EncU32(d.version) + EncFields(MetadataFields(d))
      + EncArray(Records(d.tags, TagFields)) + EncProjectionKeyFrames(d.projectionKFs)
  {
    MetadataFieldsWritable(d);
    TagArrayWritable(d.tags);
    var m, a, w := EncFields(MetadataFields(d)), EncArray(Records(d.tags, TagFields)), EncProjectionKeyFrames(d.projectionKFs);
    AppendAssoc(EncU32(d.version), m + a, w);
    AppendAssoc(EncU32(d.version), m, a);
  }

  /** Overwriting the zero word at the front with the body's length gives the length word, then the body. */
  lemma PatchLength(body: seq<byte>)
    requires |body| < TWO32
    ensures Overwrite(EncU32(0) + body, 0, EncU32(|body|)) == EncU32(|body|) + body
  {
    assert (EncU32(0) + body)[4..] == body;
  }


  /** writeHeader: six signed 64-bit words. */
  method WriteHeader(dataSize: I64, compressedSize: I64) returns (out: seq<byte>)
    ensures out == EncHeader(dataSize, compressedSize) && |out| == HeaderSize
  {
    var header := new Writer();
    header.WriteBigInt64LE(PackageTag);
    header.WriteBigInt64LE(ChunkSize);
    header.WriteBigInt64LE(compressedSize);
    header.WriteBigInt64LE(dataSize);
    header.WriteBigInt64LE(compressedSize);
    header.WriteBigInt64LE(dataSize);
    assert [] + EncI64(PackageTag) == EncI64(PackageTag);
    out := header.data;
  }

  /**
   * json2hsp without the file system: a document whose version is not 7 is
   * refused before anything is written; otherwise the payload is deflated and
   * the header, which records both sizes, is put in front of it.
   */
  method Json2Hsp(json: ProjectFile, deflate: seq<byte> -> seq<byte>) returns (r: Result<seq<byte>, DecodeError>)
    requires json.version == SupportedVersion ==> FileFits(json, deflate)
    ensures json.version != SupportedVersion ==> r == Err(UnsupportedVersion(json.version))
    ensures json.version == SupportedVersion ==> r == Ok(EncFile(json, deflate))
  {
    if json.version != SupportedVersion {
      return Err(UnsupportedVersion(json.version));
    }
    var data := WriteData(json);
    var compressed := deflate(data);
    var header := WriteHeader(|data|, |compressed|);
    return Ok(header + compressed);
  }
}
